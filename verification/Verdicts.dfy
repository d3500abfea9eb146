/**
 What verdicts mean. Evidence leaves some ticks unknown; a completion supplies a value for every tick.
 Verdicts are compared with the truth of the assertion in all completions.
 */
module Verdicts {
  import opened Basics

  datatype Verdict = Pass | Fail | Inconclusive

  // ---------- One channel ----------

  /** What is known of one channel: a value, or nothing for missing and invalid ticks alike. */
  type Known<T> = int -> Option<T>

  ghost predicate Completes<T>(g: int -> T, known: Known<T>, from: int, until: int) {
    forall t :: from <= t <= until && known(t).Some? ==> g(t) == known(t).value
  }

  ghost predicate AcceptsAll<T>(accepts: T -> bool, g: int -> T, from: int, until: int) {
    forall t :: from <= t <= until ==> accepts(g(t))
  }

  /** A contrary known value decides for FAIL, otherwise an unknown tick leaves it open. */
  ghost function RangeVerdict<T>(accepts: T -> bool, known: Known<T>, from: int, until: int): Verdict {
    if exists t :: from <= t <= until && known(t).Some? && !accepts(known(t).value) then Fail
    else if exists t :: from <= t <= until && known(t).None? then Inconclusive
    else Pass
  }

  /** PASS holds in every completion and FAIL in none. */
  lemma RangeVerdictIsSound<T>(accepts: T -> bool, known: Known<T>, from: int, until: int, g: int -> T)
    requires Completes(g, known, from, until)
    ensures RangeVerdict(accepts, known, from, until) == Pass ==> AcceptsAll(accepts, g, from, until)
    ensures RangeVerdict(accepts, known, from, until) == Fail ==> !AcceptsAll(accepts, g, from, until)
  {
    if RangeVerdict(accepts, known, from, until) == Fail {
      var t :| from <= t <= until && known(t).Some? && !accepts(known(t).value);
      assert !accepts(g(t));
    }
  }

  function Filled<T>(known: Known<T>, v: T): int -> T {
    (t: int) => if known(t).Some? then known(t).value else v
  }

  /**
   Range verdicts are exact wherever some value satisfies and some value violates the test: PASS, FAIL and
   INCONCLUSIVE say that all, no, and some but not all completions satisfy the assertion.
   */
  lemma RangeVerdictIsExact<T(!new)>(accepts: T -> bool, known: Known<T>, from: int, until: int, good: T, bad: T)
    requires accepts(good) && !accepts(bad)
    ensures RangeVerdict(accepts, known, from, until) == Pass
      <==> forall g: int -> T :: Completes(g, known, from, until) ==> AcceptsAll(accepts, g, from, until)
    ensures RangeVerdict(accepts, known, from, until) == Fail
      <==> forall g: int -> T :: Completes(g, known, from, until) ==> !AcceptsAll(accepts, g, from, until)
  {
    forall g: int -> T | Completes(g, known, from, until)
      ensures RangeVerdict(accepts, known, from, until) == Pass ==> AcceptsAll(accepts, g, from, until)
      ensures RangeVerdict(accepts, known, from, until) == Fail ==> !AcceptsAll(accepts, g, from, until)
    {
      RangeVerdictIsSound(accepts, known, from, until, g);
    }
    assert Completes(Filled(known, good), known, from, until) && Completes(Filled(known, bad), known, from, until);
    if RangeVerdict(accepts, known, from, until) != Fail {
      assert AcceptsAll(accepts, Filled(known, good), from, until);
    }
    if RangeVerdict(accepts, known, from, until) == Inconclusive {
      var t :| from <= t <= until && known(t).None?;
      assert !accepts(Filled(known, bad)(t));
    }
  }

  /** `fuller` knows everything `known` does. */
  ghost predicate Extends<T>(fuller: Known<T>, known: Known<T>) {
    forall t :: known(t).Some? ==> fuller(t) == known(t)
  }

  /** More evidence never withdraws a decided verdict. */
  lemma RangeVerdictIsMonotone<T>(accepts: T -> bool, known: Known<T>, fuller: Known<T>, from: int, until: int)
    requires Extends(fuller, known)
    requires RangeVerdict(accepts, known, from, until) != Inconclusive
    ensures RangeVerdict(accepts, fuller, from, until) == RangeVerdict(accepts, known, from, until)
  {
    if RangeVerdict(accepts, known, from, until) == Fail {
      var t :| from <= t <= until && known(t).Some? && !accepts(known(t).value);
      assert fuller(t).Some? && !accepts(fuller(t).value);
    }
  }

  // ---------- Transitions ----------

  /** The series goes from `a` to `b` between tick `t` and the next. */
  predicate Turns(g: int -> bool, a: bool, b: bool, t: int) {
    g(t) == a && g(t + 1) == b
  }

  /** Both ticks are known and show it. */
  predicate SeenTurning(known: Known<bool>, a: bool, b: bool, t: int) {
    known(t) == Some(a) && known(t + 1) == Some(b)
  }

  ghost predicate Crosses(g: int -> bool, a: bool, b: bool, from: int, until: int) {
    exists t :: from <= t < until && Turns(g, a, b, t)
  }

  ghost predicate SeenCrossing(known: Known<bool>, a: bool, b: bool, from: int, until: int) {
    exists t :: from <= t < until && SeenTurning(known, a, b, t)
  }

  ghost function TransitionVerdict(known: Known<bool>, a: bool, b: bool, from: int, until: int): Verdict {
    if SeenCrossing(known, a, b, from, until) then Pass
    else if exists t :: from <= t <= until && known(t).None? then Inconclusive
    else Fail
  }

  lemma TransitionVerdictIsSound(known: Known<bool>, a: bool, b: bool, from: int, until: int, g: int -> bool)
    requires Completes(g, known, from, until)
    ensures TransitionVerdict(known, a, b, from, until) == Pass ==> Crosses(g, a, b, from, until)
    ensures TransitionVerdict(known, a, b, from, until) == Fail ==> !Crosses(g, a, b, from, until)
  {
    if TransitionVerdict(known, a, b, from, until) == Pass {
      var t :| from <= t < until && SeenTurning(known, a, b, t);
      assert Turns(g, a, b, t);
    }
    if TransitionVerdict(known, a, b, from, until) == Fail {
      forall t | from <= t < until
        ensures !Turns(g, a, b, t)
      {
        assert known(t) == Some(g(t)) && known(t + 1) == Some(g(t + 1));
        assert !SeenTurning(known, a, b, t);
      }
    }
  }

  /** Some tick is known to be in the first state, and a later one in the second. */
  ghost predicate Forced(known: Known<bool>, a: bool, b: bool, from: int, until: int) {
    exists s, t :: from <= s < t <= until && known(s) == Some(a) && known(t) == Some(b)
  }

  lemma {:induction false} MustCross(g: int -> bool, a: bool, b: bool, s: int, t: int)
    requires s < t && g(s) == a && g(t) == b && a != b
    ensures exists u :: s <= u < t && Turns(g, a, b, u)
    decreases t - s
  {
    if g(s + 1) == a {
      MustCross(g, a, b, s + 1, t);
    } else {
      assert Turns(g, a, b, s);
    }
  }

  /** The second state up to the last tick known to be in it, the first state from there on. */
  function Avoiding(known: Known<bool>, a: bool, b: bool, cut: int): int -> bool {
    (t: int) => if known(t).Some? then known(t).value else if t <= cut then b else a
  }

  lemma {:induction false} LastKnown(known: Known<bool>, b: bool, from: int, until: int) returns (cut: int)
    requires from <= until + 1
    ensures from - 1 <= cut <= until
    ensures cut >= from ==> known(cut) == Some(b)
    ensures forall t :: cut < t <= until ==> known(t) != Some(b)
    decreases until - from + 1
  {
    if from == until + 1 {
      cut := until;
    } else if known(until) == Some(b) {
      cut := until;
    } else {
      cut := LastKnown(known, b, from, until - 1);
    }
  }

  /** Every completion makes the transition exactly when the two known states occur in that order. */
  lemma TransitionIsForcedExactlyWhen(known: Known<bool>, a: bool, b: bool, from: int, until: int)
    requires a != b && from <= until
    ensures Forced(known, a, b, from, until)
      <==> forall g: int -> bool :: Completes(g, known, from, until) ==> Crosses(g, a, b, from, until)
  {
    if Forced(known, a, b, from, until) {
      var s, t :| from <= s < t <= until && known(s) == Some(a) && known(t) == Some(b);
      forall g: int -> bool | Completes(g, known, from, until)
        ensures Crosses(g, a, b, from, until)
      {
        MustCross(g, a, b, s, t);
      }
    } else {
      var cut := LastKnown(known, b, from, until);
      var g := Avoiding(known, a, b, cut);
      assert Completes(g, known, from, until);
      forall t | from <= t < until
        ensures !Turns(g, a, b, t)
      {
        AvoidingAvoids(known, a, b, from, until, cut, t);
      }
    }
  }

  lemma AvoidingAvoids(known: Known<bool>, a: bool, b: bool, from: int, until: int, cut: int, t: int)
    requires a != b && from <= t < until && from - 1 <= cut <= until
    requires cut >= from ==> known(cut) == Some(b)
    requires forall u :: cut < u <= until ==> known(u) != Some(b)
    requires !Forced(known, a, b, from, until)
    ensures !Turns(Avoiding(known, a, b, cut), a, b, t)
  {
    assert !(t < cut && known(t) == Some(a) && known(cut) == Some(b));
  }

  /** Some completion makes the transition exactly when two adjacent ticks allow it. */
  lemma TransitionIsPossibleExactlyWhen(known: Known<bool>, a: bool, b: bool, from: int, until: int)
    ensures (exists t :: from <= t < until && MayTurn(known, a, b, t))
      <==> exists g: int -> bool :: Completes(g, known, from, until) && Crosses(g, a, b, from, until)
  {
    if t :| from <= t < until && MayTurn(known, a, b, t) {
      var g := Turning(known, a, b, t);
      assert Turns(g, a, b, t);
      assert Completes(g, known, from, until) && Crosses(g, a, b, from, until);
    }
    if g: int -> bool :| Completes(g, known, from, until) && Crosses(g, a, b, from, until) {
      var t :| from <= t < until && Turns(g, a, b, t);
      assert MayTurn(known, a, b, t);
    }
  }

  /** Neither tick is known to be in the other state. */
  predicate MayTurn(known: Known<bool>, a: bool, b: bool, t: int) {
    known(t) != Some(!a) && known(t + 1) != Some(!b)
  }

  function Turning(known: Known<bool>, a: bool, b: bool, t: int): int -> bool {
    (u: int) => if known(u).Some? then known(u).value else if u == t then a else b
  }

  /** Without unknown ticks a forced transition is seen. */
  lemma FullEvidenceShowsTransition(known: Known<bool>, a: bool, b: bool, from: int, until: int)
    requires a != b && Forced(known, a, b, from, until)
    requires forall t :: from <= t <= until ==> known(t).Some?
    ensures SeenCrossing(known, a, b, from, until)
  {
    var s, t :| from <= s < t <= until && known(s) == Some(a) && known(t) == Some(b);
    var g := Filled(known, false);
    MustCross(g, a, b, s, t);
    var u :| s <= u < t && Turns(g, a, b, u);
    assert known(u).Some? && known(u + 1).Some?;
    assert SeenTurning(known, a, b, u);
  }

  /**
   The verdict is deliberately conservative. It stays INCONCLUSIVE although every completion makes the transition
   exactly when the two states are known in order but nowhere on adjacent ticks.
   */
  lemma TransitionVerdictIsConservative(known: Known<bool>, a: bool, b: bool, from: int, until: int)
    requires a != b && from <= until
    ensures (TransitionVerdict(known, a, b, from, until) == Inconclusive
             && forall g: int -> bool :: Completes(g, known, from, until) ==> Crosses(g, a, b, from, until))
      <==> Forced(known, a, b, from, until) && !SeenCrossing(known, a, b, from, until)
  {
    TransitionIsForcedExactlyWhen(known, a, b, from, until);
    if Forced(known, a, b, from, until) && !SeenCrossing(known, a, b, from, until) {
      if forall t :: from <= t <= until ==> known(t).Some? {
        FullEvidenceShowsTransition(known, a, b, from, until);
        assert false;
      }
    }
  }

  /** A gap between the two states: an instance of that conservatism. */
  lemma GapHidesForcedTransition(known: Known<bool>)
    requires known(0) == Some(false) && known(1) == None && known(2) == Some(true)
    ensures TransitionVerdict(known, false, true, 0, 2) == Inconclusive
    ensures forall g: int -> bool :: Completes(g, known, 0, 2) ==> Crosses(g, false, true, 0, 2)
  {
    assert Forced(known, false, true, 0, 2);
    TransitionIsForcedExactlyWhen(known, false, true, 0, 2);
  }

  lemma TransitionVerdictIsMonotone(known: Known<bool>, fuller: Known<bool>, a: bool, b: bool, from: int, until: int)
    requires Extends(fuller, known)
    requires TransitionVerdict(known, a, b, from, until) != Inconclusive
    ensures TransitionVerdict(fuller, a, b, from, until) == TransitionVerdict(known, a, b, from, until)
  {
    if SeenCrossing(known, a, b, from, until) {
      var t :| from <= t < until && SeenTurning(known, a, b, t);
      assert SeenTurning(fuller, a, b, t);
    } else {
      forall t | from <= t < until
        ensures !SeenTurning(fuller, a, b, t)
      {
        assert fuller(t) == known(t) && fuller(t + 1) == known(t + 1);
        assert !SeenTurning(known, a, b, t);
      }
    }
  }
}
