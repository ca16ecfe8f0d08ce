/** Loops that make one turn after the other until there is nothing to do: when they end, and
    after how many turns. */
module Loops {
  import opened Primitives

  /** The state after so many turns, if the loop makes that many. */
  function Iterate<S>(s: S, n: nat, turn: S -> Option<S>): Option<S>
    decreases n
  {
    if n == 0 then Some(s)
    else
      var next := turn(s);
      if next.None? then None else Iterate(next.value, n - 1, turn)
  }

  ghost predicate NeverEnds<S>(s: S, turn: S -> Option<S>) {
    forall n: nat :: Iterate(s, n, turn).Some?
  }

  predicate ReachedAfter<S>(s: S, n: nat, turn: S -> Option<S>, stuck: S -> bool) {
    var at := Iterate(s, n, turn);
    at.Some? && stuck(at.value)
  }

  ghost predicate Reaches<S>(s: S, turn: S -> Option<S>, stuck: S -> bool) {
    exists n: nat :: ReachedAfter(s, n, turn, stuck)
  }

  /** A turn makes the state smaller, unless it is stuck; a stuck state stays so. */
  ghost predicate Measured<S(!new)>(turn: S -> Option<S>, stuck: S -> bool, size: S -> nat) {
    forall s: S ::
      && (stuck(s) ==> turn(s).Some? && stuck(turn(s).value))
      && (turn(s).Some? && !stuck(s) ==> size(turn(s).value) < size(s))
  }

  lemma {:induction false} IterateLast<S>(s: S, n: nat, turn: S -> Option<S>)
    requires Iterate(s, n, turn).Some?
    ensures Iterate(s, n + 1, turn) == turn(Iterate(s, n, turn).value)
    decreases n
  {
    if n == 0 {
      var next := turn(s);
      if next.Some? { assert Iterate(next.value, 0, turn) == next; }
    } else {
      IterateLast(turn(s).value, n - 1, turn);
    }
  }

  lemma {:induction false} IterateStops<S>(s: S, n: nat, m: nat, turn: S -> Option<S>)
    requires Iterate(s, n, turn).None? && n <= m
    ensures Iterate(s, m, turn).None?
    decreases n
  {
    if turn(s).Some? { IterateStops(turn(s).value, n - 1, m - 1, turn); }
  }

  /** A loop that has nothing to do after some turns makes no more. */
  lemma IterateEnds<S>(s: S, n: nat, m: nat, turn: S -> Option<S>)
    requires Iterate(s, n, turn).Some? && turn(Iterate(s, n, turn).value).None? && n < m
    ensures Iterate(s, m, turn).None?
  {
    IterateLast(s, n, turn);
    IterateStops(s, n + 1, m, turn);
  }

  lemma ReachedNow<S>(s: S, turn: S -> Option<S>, stuck: S -> bool)
    requires stuck(s)
    ensures Reaches(s, turn, stuck)
  {
    assert ReachedAfter(s, 0, turn, stuck);
  }

  lemma ReachedLater<S>(s: S, turn: S -> Option<S>, stuck: S -> bool)
    requires turn(s).Some? && !stuck(s)
    ensures Reaches(s, turn, stuck) <==> Reaches(turn(s).value, turn, stuck)
  {
    if n: nat :| ReachedAfter(turn(s).value, n, turn, stuck) { assert ReachedAfter(s, n + 1, turn, stuck); }
    if n: nat :| ReachedAfter(s, n, turn, stuck) { assert ReachedAfter(turn(s).value, n - 1, turn, stuck); }
  }

  lemma NotReached<S>(s: S, turn: S -> Option<S>, stuck: S -> bool)
    requires turn(s).None? && !stuck(s)
    ensures !Reaches(s, turn, stuck)
  {
    forall n: nat ensures !ReachedAfter(s, n, turn, stuck) {}
  }

  lemma {:induction false} GoesOn<S(!new)>(s: S, n: nat, turn: S -> Option<S>, stuck: S -> bool, size: S -> nat)
    requires Measured(turn, stuck, size) && Reaches(s, turn, stuck)
    ensures Iterate(s, n, turn).Some?
    decreases n
  {
    if n > 0 {
      if turn(s).None? { NotReached(s, turn, stuck); }
      var next := turn(s).value;
      if stuck(s) { ReachedNow(next, turn, stuck); } else { ReachedLater(s, turn, stuck); }
      GoesOn(next, n - 1, turn, stuck, size);
    }
  }

  /** There are at most as many turns as the state is large, unless it gets stuck. */
  lemma {:induction false} EndsWithin<S(!new)>(s: S, n: nat, turn: S -> Option<S>, stuck: S -> bool, size: S -> nat)
    requires Measured(turn, stuck, size) && !Reaches(s, turn, stuck) && n > size(s)
    ensures Iterate(s, n, turn).None?
    decreases n
  {
    if stuck(s) { ReachedNow(s, turn, stuck); }
    if turn(s).Some? {
      ReachedLater(s, turn, stuck);
      EndsWithin(turn(s).value, n - 1, turn, stuck, size);
    }
  }

  /** Every turn takes something off the size, unless the loop gets stuck. */
  lemma {:induction false} Shrunk<S(!new)>(s: S, n: nat, turn: S -> Option<S>, stuck: S -> bool, size: S -> nat)
    requires Measured(turn, stuck, size) && !Reaches(s, turn, stuck) && Iterate(s, n, turn).Some?
    ensures size(Iterate(s, n, turn).value) + n <= size(s)
    decreases n
  {
    if n > 0 {
      if stuck(s) { ReachedNow(s, turn, stuck); }
      ReachedLater(s, turn, stuck);
      Shrunk(turn(s).value, n - 1, turn, stuck, size);
    }
  }

  lemma {:induction false} IterateKeeps<S(!new)>(s: S, n: nat, turn: S -> Option<S>, inv: S -> bool)
    requires inv(s) && forall x: S | inv(x) && turn(x).Some? :: inv(turn(x).value)
    ensures Iterate(s, n, turn).Some? ==> inv(Iterate(s, n, turn).value)
    decreases n
  {
    if n > 0 && turn(s).Some? { IterateKeeps(turn(s).value, n - 1, turn, inv); }
  }

  /** Such a loop goes on for ever exactly if it reaches a stuck state. */
  lemma EndsUnlessStuck<S(!new)>(s: S, turn: S -> Option<S>, stuck: S -> bool, size: S -> nat)
    requires Measured(turn, stuck, size)
    ensures NeverEnds(s, turn) <==> Reaches(s, turn, stuck)
  {
    if Reaches(s, turn, stuck) {
      forall n: nat ensures Iterate(s, n, turn).Some? { GoesOn(s, n, turn, stuck, size); }
    } else {
      EndsWithin(s, size(s) + 1, turn, stuck, size);
    }
  }
}
