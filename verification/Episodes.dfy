/** Cancellation episodes inside any run of the system: neither the other builders nor waiting
    for blocks can keep a builder from building again. */
module Episodes {
  import opened Primitives
  import opened Locks
  import opened Machines
  import opened Builders

  predicate Cancels(b: Builder) {
    b.machine.inner.Cancelling? || b.machine.inner.CancelPending?
  }

  function MovesOf(moves: seq<Move>, i: nat): nat {
    if moves == [] then 0 else (if moves[0].id == i then 1 else 0) + MovesOf(moves[1..], i)
  }

  /** The builder is building at some point of the run. */
  predicate Builds(sys: System, moves: seq<Move>, i: nat, s: Settings)
    requires IsRun(sys, moves, s) && i in sys.builders
    decreases |moves|
  {
    sys.builders[i].machine.inner.Building? || (moves != [] && Builds(Next(sys, moves[0], s), moves[1..], i, s))
  }

  // ---------------------------------------------------------------- counting what comes too early

  /** How many moves of the builder are left at most, but for those that come too early. */
  function Distance(b: Builder, s: Settings): nat {
    var rank := Rank(b.machine.inner, s);
    if b.phase.Woken? && rank > 0 then 2 * rank - 1 else 2 * rank
  }

  /** A check that comes before its deadline. */
  predicate Early(b: Builder, e: Event) {
    b.machine.inner.CancelPending? && e.CheckCancelled? && e.block < b.machine.inner.until
  }

  /** A move of a cancelling builder ends the episode, brings its end closer, or is a check
      that comes too early and leaves the builder to wake up again. */
  lemma {:induction false} MoveCloser(b: Builder, locks: LockMap, e: Event, s: Settings)
    requires BuilderOk(b, locks, s) && Enabled(b, e) && Cancels(b)
    ensures var r := Step(b, locks, e, s).builder;
            || r.machine.inner.Building?
            || (Cancels(r) && Distance(r, s) < Distance(b, s))
            || (Early(b, e) && r == b.(phase := Idle) && Distance(r, s) == Distance(b, s) + 1)
  {
    match e
    case WakeUp(wake) => WaitKeeps(b.machine, wake, s);
    case Cancel(estimated, answer, block) => CancellingKeeps(b.machine, estimated, answer, block, s);
    case CheckCancelled(block) =>
  }

  /** How many checks of the builder come too early before it is building. */
  function EarlyOf(sys: System, moves: seq<Move>, i: nat, s: Settings): nat
    requires IsRun(sys, moves, s) && i in sys.builders
    decreases |moves|
  {
    if moves == [] || sys.builders[i].machine.inner.Building? then 0
    else
      (if moves[0].id == i && Early(sys.builders[i], moves[0].event) then 1 else 0)
      + EarlyOf(Next(sys, moves[0], s), moves[1..], i, s)
  }

  lemma DistancePositive(b: Builder, locks: LockMap, s: Settings)
    requires BuilderOk(b, locks, s) && Cancels(b)
    ensures Distance(b, s) > 0
  {
  }

  /** In every run, whatever the other builders do, a cancelling builder is building again
      after as many of its own moves as its distance says and two more for every check that
      comes too early. */
  lemma {:induction false} EpisodeEndsInRun(sys: System, moves: seq<Move>, i: nat, s: Settings)
    requires SystemOk(sys, s) && IsRun(sys, moves, s) && i in sys.builders && Cancels(sys.builders[i])
    requires MovesOf(moves, i) >= Distance(sys.builders[i], s) + 2 * EarlyOf(sys, moves, i, s)
    ensures Builds(sys, moves, i, s)
    decreases |moves|
  {
    var b := sys.builders[i];
    assert BuilderOk(b, sys.locks, s);
    DistancePositive(b, sys.locks, s);
    NextOk(sys, moves[0], s);
    var next := Next(sys, moves[0], s);
    if moves[0].id == i { MoveCloser(b, sys.locks, moves[0].event, s); }
    if !next.builders[i].machine.inner.Building? { EpisodeEndsInRun(next, moves[1..], i, s); }
  }

  // ---------------------------------------------------------------- blocks that advance

  /** The block a builder has seen last: that of its last cancellation or check. */
  function Seen(last: nat, e: Event): nat {
    if e.Cancel? || e.CheckCancelled? then e.block else last
  }

  /** Every check of the builder sees a later block than it has seen before, as it waits for a
      block each time. */
  predicate Advances(moves: seq<Move>, i: nat, last: nat) {
    moves == [] ||
    (&& (moves[0].id == i && moves[0].event.CheckCancelled? ==> moves[0].event.block > last)
     && Advances(moves[1..], i, if moves[0].id == i then Seen(last, moves[0].event) else last))
  }

  /** The moves one cancellation takes at most: waking up and sending it, and waking up and
      checking at every block until the deadline. */
  function PerCancellation(s: Settings): nat {
    2 * s.maxBlocksToWait + 4
  }

  function IncreasesLeft(inner: Inner, s: Settings): nat
    requires inner.Cancelling? || inner.CancelPending?
  {
    SatSub(s.maxCancelIncreases, inner.increases)
  }

  /** How many moves of the builder are left at most, if blocks advance. */
  function Remaining(b: Builder, last: nat, s: Settings): nat
    requires Cancels(b)
  {
    var inner := b.machine.inner;
    PerCancellation(s) * IncreasesLeft(inner, s)
    + (if inner.Cancelling? then PerCancellation(s) else 2 * SatSub(inner.until, last) + 2)
    - (if b.phase.Woken? then 1 else 0)
  }

  lemma OneFewer(k: nat, n: nat)
    requires n > 0
    ensures k * n == k * (n - 1) + k
  {
  }

  lemma {:induction false} AdvancingMove(b: Builder, locks: LockMap, e: Event, last: nat, s: Settings)
    requires BuilderOk(b, locks, s) && Enabled(b, e) && Cancels(b)
    requires e.CheckCancelled? ==> e.block > last
    ensures var r := Step(b, locks, e, s).builder;
            r.machine.inner.Building? || (Cancels(r) && Remaining(r, Seen(last, e), s) < Remaining(b, last, s))
  {
    var n := IncreasesLeft(b.machine.inner, s);
    if n > 0 { OneFewer(PerCancellation(s), n); }
    match e
    case WakeUp(wake) => WaitKeeps(b.machine, wake, s);
    case Cancel(estimated, answer, block) => CancellingKeeps(b.machine, estimated, answer, block, s);
    case CheckCancelled(block) =>
  }

  /** In every run, whatever the other builders do, a cancelling builder that sees a later
      block at every check is building again after so many of its own moves. */
  lemma {:induction false} EpisodeEndsWithBlocks(sys: System, moves: seq<Move>, i: nat, last: nat, s: Settings)
    requires SystemOk(sys, s) && IsRun(sys, moves, s) && Advances(moves, i, last)
    requires i in sys.builders && Cancels(sys.builders[i])
    requires MovesOf(moves, i) >= Remaining(sys.builders[i], last, s)
    ensures Builds(sys, moves, i, s)
    decreases |moves|
  {
    var b := sys.builders[i];
    assert BuilderOk(b, sys.locks, s);
    NextOk(sys, moves[0], s);
    var next := Next(sys, moves[0], s);
    if moves[0].id == i { AdvancingMove(b, sys.locks, moves[0].event, last, s); }
    if !next.builders[i].machine.inner.Building? {
      EpisodeEndsWithBlocks(next, moves[1..], i, if moves[0].id == i then Seen(last, moves[0].event) else last, s);
    }
  }

  lemma RemainingBound(b: Builder, last: nat, s: Settings)
    requires Cancels(b) && (b.machine.inner.CancelPending? ==> b.machine.inner.until <= last + s.maxBlocksToWait)
    ensures Remaining(b, last, s) <= (2 * s.maxBlocksToWait + 4) * (s.maxCancelIncreases + 1)
  {
    var k, n := PerCancellation(s), IncreasesLeft(b.machine.inner, s);
    MoreIncreases(k, n, s.maxCancelIncreases);
    OneFewer(k, s.maxCancelIncreases + 1);
  }

  /** So an episode, from its first cancellation on, takes at most so many moves for each of
      the cancellations it may issue. */
  lemma EpisodeBound(sys: System, moves: seq<Move>, i: nat, last: nat, s: Settings)
    requires SystemOk(sys, s) && IsRun(sys, moves, s) && Advances(moves, i, last)
    requires i in sys.builders && Cancels(sys.builders[i])
    requires sys.builders[i].machine.inner.CancelPending? ==>
               sys.builders[i].machine.inner.until <= last + s.maxBlocksToWait
    requires MovesOf(moves, i) >= (2 * s.maxBlocksToWait + 4) * (s.maxCancelIncreases + 1)
    ensures Builds(sys, moves, i, s)
  {
    RemainingBound(sys.builders[i], last, s);
    EpisodeEndsWithBlocks(sys, moves, i, last, s);
  }

  lemma MoreIncreases(k: nat, n: nat, m: nat)
    requires n <= m
    ensures k * n <= k * m
  {
  }
}
