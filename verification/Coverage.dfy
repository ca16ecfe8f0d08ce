/** Whether the senders of all outstanding transactions of a builder, not only of its latest
    bundle, stay locked: they do unless the builder gives up for want of operations. */
module Coverage {
  import opened Primitives
  import opened Percent
  import opened Locks
  import opened Tracking
  import opened Machines
  import opened Builders

  /** The senders of all transactions sent at this nonce are confirmed to the builder,
      unless the tracker is about to be reset. */
  predicate Covered(b: Builder, locks: LockMap) {
    b.machine.requiresReset || AllConfirmed(SentTxs(b.machine.tracker.txs), locks, b.address)
  }

  predicate AllConfirmed(txs: seq<Tx>, locks: LockMap, builder: Address) {
    forall i | 0 <= i < |txs| :: ConfirmedTo(txs[i].senders, locks, builder)
  }

  predicate Outstanding(t: Tracker) {
    exists i | 0 <= i < |SentTxs(t.txs)| :: SentTxs(t.txs)[i].senders != {}
  }

  /** The pieces that release locks without a reset: no operation for this builder, or none
      left after simulation. */
  predicate GivesUpOperations(e: Event) {
    (e.Fetched? && e.ops == Some({})) || (e.Send? && e.offer.NothingAfterSimulation?)
  }

  lemma ReleasedNotCovered(t: Tracker, locks: LockMap, builder: Address)
    ensures AllConfirmed(SentTxs(t.txs), ReleaseAll(locks, builder), builder) <==> !Outstanding(t)
  {
    var sent := SentTxs(t.txs);
    assert HeldIn(ReleaseAll(locks, builder), Lock(builder, Confirmed)) == {};
    if AllConfirmed(sent, ReleaseAll(locks, builder), builder) {
      forall i | 0 <= i < |sent| ensures sent[i].senders == {} {
        assert ConfirmedTo(sent[i].senders, ReleaseAll(locks, builder), builder);
      }
    }
  }

  lemma ConfirmedKept(txs: seq<Tx>, locks: LockMap, a: Action)
    requires Allowed(locks, a) && !a.ReleaseFor? && AllConfirmed(txs, locks, a.builder)
    ensures AllConfirmed(txs, Act(locks, a), a.builder)
  {
    forall s | s in HeldIn(locks, Lock(a.builder, Confirmed))
      ensures s in HeldIn(Act(locks, a), Lock(a.builder, Confirmed))
    {
      ConfirmedStep(locks, a, s);
    }
    forall i | 0 <= i < |txs| ensures ConfirmedTo(txs[i].senders, Act(locks, a), a.builder) {
      assert ConfirmedTo(txs[i].senders, locks, a.builder);
    }
  }

  /** Losing nothing that is confirmed. */
  lemma FailedAttemptCovers(sent: seq<Tx>, locks: LockMap, builder: Address, attempt: Attempt)
    requires AllConfirmed(sent, locks, builder)
    requires attempt == NoOperationsAfterFeeFilter || attempt == AttemptError
             || (attempt.NotSent? && !attempt.error.NonceTooLow?)
    ensures AllConfirmed(sent, LocksAfter(locks, builder, attempt, |sent|), builder)
  {
    ConfirmedKept(sent, locks, ConfirmFor(builder, {}));
  }

  lemma SuccessCovers(sent: seq<Tx>, tx: Tx, locks: LockMap, builder: Address)
    requires AllConfirmed(sent, locks, builder) && tx.senders <= HeldBy(locks, builder)
    ensures AllConfirmed(sent + [tx], Confirm(locks, builder, tx.senders), builder)
  {
    ConfirmedKept(sent, locks, ConfirmFor(builder, tx.senders));
    assert ConfirmedTo(tx.senders, Confirm(locks, builder, tx.senders), builder);
  }

  lemma {:induction false} SendCovered(b: Builder, locks: LockMap, e: Event, s: Settings)
    requires BuilderOk(b, locks, s) && Enabled(b, e) && Covered(b, locks) && e.Send?
    ensures var r := Step(b, locks, e, s);
            Covered(r.builder, r.locks) <==> !(GivesUpOperations(e) && Outstanding(b.machine.tracker))
  {
    var m, sent := b.machine, SentTxs(b.machine.tracker.txs);
    SendBundleKeeps(m, e.offer, s);
    var (m', attempt) := SendBundle(m, e.offer, s.percent);
    BuildingKeeps(m', attempt, e.block, e.account, s);
    if attempt.Success? {
      SendSuccessCovers(m, e.offer, locks, b.address, s);
    } else if attempt.NoOperationsAfterSimulation? {
      ReleasedNotCovered(m.tracker, locks, b.address);
    } else if attempt != NotSent(NonceTooLow) {
      FailedAttemptCovers(sent, locks, b.address, attempt);
    }
  }

  lemma SendSuccessCovers(m: Machine, offer: Offer, locks: LockMap, builder: Address, s: Settings)
    requires TrackerOk(m.tracker, s.percent) && AllConfirmed(SentTxs(m.tracker.txs), locks, builder)
    requires offer.Offered? && offer.senders <= HeldBy(locks, builder) && SendBundle(m, offer, s.percent).1.Success?
    ensures AllConfirmed(SentTxs(SendBundle(m, offer, s.percent).0.tracker.txs),
                         Confirm(locks, builder, offer.senders), builder)
  {
    var sent := SentTxs(m.tracker.txs);
    SendKeeps(m.tracker, Some(m.tracker.nonce), offer.fees, offer.senders, offer.answer, s.percent);
    SuccessCovers(sent, SentTxs(SendBundle(m, offer, s.percent).0.tracker.txs)[|sent|], locks, builder);
  }

  lemma {:induction false} CancelCovered(b: Builder, locks: LockMap, e: Event, s: Settings)
    requires BuilderOk(b, locks, s) && Enabled(b, e) && Covered(b, locks) && e.Cancel?
    ensures var r := Step(b, locks, e, s); Covered(r.builder, r.locks)
  {
    CancelTracked(b.machine, locks, b.address, e.estimated, e.answer, e.block, s);
  }

  lemma AppendConfirmed(sent: seq<Tx>, tx: Tx, locks: LockMap, builder: Address)
    requires AllConfirmed(sent, locks, builder) && tx.senders == {}
    ensures AllConfirmed(sent + [tx], locks, builder)
  {
  }

  lemma {:induction false} CancelConfirmed(t: Tracker, locks: LockMap, builder: Address, estimated: GasFees,
                                           answer: CancelAnswer, percent: nat)
    requires TrackerOk(t, percent) && AllConfirmed(SentTxs(t.txs), locks, builder)
    ensures var (t', result) := CancelTransaction(t, estimated, answer, percent);
            result.SoftCancel? || AllConfirmed(SentTxs(t'.txs), locks, builder)
  {
    var (t', result) := CancelTransaction(t, estimated, answer, percent);
    CancelKeeps(t, estimated, answer, percent);
    if result.Sent? {
      var fees :| SentTxs(t'.txs) == SentTxs(t.txs) + [Tx(Some(result.hash), fees, t.attempts, false, t.nonce, {})];
      AppendConfirmed(SentTxs(t.txs), Tx(Some(result.hash), fees, t.attempts, false, t.nonce, {}), locks, builder);
    }
  }

  /** A cancellation confirms nothing and forgets nothing, unless the tracker is to be reset. */
  lemma {:induction false} CancelTracked(m: Machine, locks: LockMap, builder: Address, estimated: GasFees,
                                         answer: CancelAnswer, block: nat, s: Settings)
    requires TrackerOk(m.tracker, s.percent) && m.inner.Cancelling?
    requires AllConfirmed(SentTxs(m.tracker.txs), locks, builder)
    ensures var h := HandleCancelling(m, estimated, answer, block, s);
            || h.machine.requiresReset
            || (!h.release && AllConfirmed(SentTxs(h.machine.tracker.txs), locks, builder))
  {
    CancelConfirmed(m.tracker, locks, builder, estimated, answer, s.percent);
  }

  /** A piece of a step keeps the senders of all outstanding transactions locked, if and only
      if it does not give up for want of operations while a transaction is outstanding. */
  lemma {:induction false} CoverageStep(b: Builder, locks: LockMap, e: Event, s: Settings)
    requires BuilderOk(b, locks, s) && Enabled(b, e) && Covered(b, locks)
    ensures var r := Step(b, locks, e, s);
            Covered(r.builder, r.locks) <==> !(GivesUpOperations(e) && Outstanding(b.machine.tracker))
  {
    var m := b.machine;
    match e
    case WakeUp(wake) => WaitKeeps(m, wake, s);
    case BeginAssign(summaries, max, account) =>
      if summaries.Some? { ConfirmedKept(SentTxs(m.tracker.txs), locks, AssignTo(b.address, summaries.value, max)); }
    case Fetched(ops, block, account) => ReleasedNotCovered(m.tracker, locks, b.address);
    case Send(offer, block, account) => SendCovered(b, locks, e, s);
    case CheckPending(block, mustWait) =>
    case Cancel(estimated, answer, block) => CancelCovered(b, locks, e, s);
    case CheckCancelled(block) =>
  }

  // ---------------------------------------------------------------- runs

  predicate AllCovered(sys: System) {
    forall i | i in sys.builders :: Covered(sys.builders[i], sys.locks)
  }

  /** No move gives up while a transaction of its builder is outstanding. */
  predicate Careful(sys: System, moves: seq<Move>, s: Settings)
    requires IsRun(sys, moves, s)
    decreases |moves|
  {
    moves == [] || (!(GivesUpOperations(moves[0].event) && Outstanding(sys.builders[moves[0].id].machine.tracker))
                    && Careful(Next(sys, moves[0], s), moves[1..], s))
  }

  lemma CoveredElsewhere(b: Builder, locks: LockMap, after: LockMap)
    requires HeldIn(after, Lock(b.address, Confirmed)) == HeldIn(locks, Lock(b.address, Confirmed)) && Covered(b, locks)
    ensures Covered(b, after)
  {
    var sent := SentTxs(b.machine.tracker.txs);
    forall i | 0 <= i < |sent| && !b.machine.requiresReset ensures ConfirmedTo(sent[i].senders, after, b.address) {
      assert ConfirmedTo(sent[i].senders, locks, b.address);
    }
  }

  lemma NextCovered(sys: System, move: Move, s: Settings)
    requires SystemOk(sys, s) && CanMove(sys, move) && AllCovered(sys)
    requires !(GivesUpOperations(move.event) && Outstanding(sys.builders[move.id].machine.tracker))
    ensures AllCovered(Next(sys, move, s))
  {
    var b, next := sys.builders[move.id], Next(sys, move, s);
    assert BuilderOk(b, sys.locks, s) && Covered(b, sys.locks);
    CoverageStep(b, sys.locks, move.event, s);
    forall i | i in next.builders ensures Covered(next.builders[i], next.locks) {
      if i != move.id {
        StepLocal(b, sys.locks, move.event, s, sys.builders[i].address);
        assert Covered(sys.builders[i], sys.locks);
        CoveredElsewhere(sys.builders[i], sys.locks, next.locks);
      }
    }
  }

  lemma {:induction false} RunCovered(sys: System, moves: seq<Move>, s: Settings)
    requires SystemOk(sys, s) && IsRun(sys, moves, s) && AllCovered(sys) && Careful(sys, moves, s)
    ensures AllCovered(RunSystem(sys, moves, s))
    decreases |moves|
  {
    if moves != [] {
      NextOk(sys, moves[0], s);
      NextCovered(sys, moves[0], s);
      RunCovered(Next(sys, moves[0], s), moves[1..], s);
    }
  }

  lemma CoveredDisjoint(a: Builder, b: Builder, locks: LockMap, x: Tx, y: Tx)
    requires Covered(a, locks) && Covered(b, locks) && a.address != b.address
    requires !a.machine.requiresReset && !b.machine.requiresReset
    requires x in SentTxs(a.machine.tracker.txs) && y in SentTxs(b.machine.tracker.txs)
    ensures x.senders !! y.senders
  {
    assert ConfirmedTo(x.senders, locks, a.address) && ConfirmedTo(y.senders, locks, b.address);
  }

  /** The sent transactions a builder goes on following: none when its tracker is about to be
      reset. */
  function Followed(b: Builder): seq<Tx> {
    if b.machine.requiresReset then [] else SentTxs(b.machine.tracker.txs)
  }

  /** In every run whose moves are careful, no two builders ever have outstanding
      transactions they follow that share a sender. */
  lemma {:induction false} OutstandingDisjoint(addresses: seq<Address>, accounts: seq<Option<Account>>,
                                               moves: seq<Move>, s: Settings)
    requires |accounts| == |addresses| && Distinct(addresses)
    requires IsRun(Start(addresses, accounts), moves, s) && Careful(Start(addresses, accounts), moves, s)
    ensures var end := RunSystem(Start(addresses, accounts), moves, s);
            forall i, j, x, y | i in end.builders && j in end.builders && i != j
                                && x in Followed(end.builders[i]) && y in Followed(end.builders[j]) ::
                                   x.senders !! y.senders
  {
    var start := Start(addresses, accounts);
    StartOk(addresses, accounts, s);
    RunOk(start, moves, s);
    RunCovered(start, moves, s);
    var end := RunSystem(start, moves, s);
    forall i, j, x, y | i in end.builders && j in end.builders && i != j
                        && x in Followed(end.builders[i]) && y in Followed(end.builders[j])
      ensures x.senders !! y.senders
    {
      CoveredDisjoint(end.builders[i], end.builders[j], end.locks, x, y);
    }
  }

  // ---------------------------------------------------------------- a careless run

  lemma {:induction false} RunAppend(sys: System, moves: seq<Move>, move: Move, s: Settings)
    requires IsRun(sys, moves, s) && CanMove(RunSystem(sys, moves, s), move)
    ensures IsRun(sys, moves + [move], s)
            && RunSystem(sys, moves + [move], s) == Next(RunSystem(sys, moves, s), move, s)
    decreases |moves|
  {
    var all := moves + [move];
    if moves == [] {
      assert all[0] == move && all[1..] == [];
    } else {
      RunAppend(Next(sys, moves[0], s), moves[1..], move, s);
      assert all[0] == moves[0] && all[1..] == moves[1..] + [move];
    }
  }

  function Alone(r: After): System {
    System(map[0 := r.builder], r.locks)
  }

  /** Some run of a single builder from its start leads here. */
  ghost predicate Reached(r: After, s: Settings) {
    var start := Start([1], [None]);
    BuilderOk(r.builder, r.locks, s) && exists moves :: IsRun(start, moves, s) && RunSystem(start, moves, s) == Alone(r)
  }

  lemma Advance(r: After, e: Event, s: Settings)
    requires Reached(r, s) && Enabled(r.builder, e)
    ensures Reached(Step(r.builder, r.locks, e, s), s)
  {
    var start := Start([1], [None]);
    var moves :| IsRun(start, moves, s) && RunSystem(start, moves, s) == Alone(r);
    AloneNext(r, e, s);
    RunAppend(start, moves, Move(0, e), s);
  }

  lemma {:induction false} AloneNext(r: After, e: Event, s: Settings)
    requires BuilderOk(r.builder, r.locks, s) && Enabled(r.builder, e)
    ensures CanMove(Alone(r), Move(0, e))
    ensures var r' := Step(r.builder, r.locks, e, s);
            Next(Alone(r), Move(0, e), s) == Alone(r') && BuilderOk(r'.builder, r'.locks, s)
  {
    StepKeeps(r.builder, r.locks, e, s);
  }

  const FEES := GasFees(1, 1)
  const BEFORE := Tracker(0, 0, [], false, 0)
  const SENT := Tracker(0, 0, [Tx(Some(5), FEES, 0, false, 0, {7})], false, 1)
  const AWAIT := WakeUp(Wake(None, Triggered(None), h => Missing))
  const TAKEN: LockMap := map[7 := Lock(1, Assigned)]
  const KEPT: LockMap := map[7 := Lock(1, Confirmed)]
  const RETRY := Building(false, 1, None)

  function Quiet(phase: Phase, locks: LockMap): After {
    After(Builder(1, Machine(INITIAL, false, BEFORE, 0, {}), phase), locks)
  }

  function Busy(inner: Inner, phase: Phase, locks: LockMap): After {
    After(Builder(1, Machine(inner, false, SENT, 0, {7}), phase), locks)
  }

  lemma AssignSeven()
    ensures Assign(map[], 1, [Summary(9, 7)], [], 4) == Assignment(TAKEN, [Summary(9, 7)])
            && SendersOf([Summary(9, 7)]) == {7}
  {
    var ops := [Summary(9, 7)];
    assert ops[1..] == [] && [] + [ops[0]] == ops;
    assert Assign(TAKEN, 1, ops[1..], ops, 4) == Assignment(TAKEN, ops);
    assert ops[0].sender == 7;
  }

  lemma QuietSteps(s: Settings)
    ensures Step(Quiet(Idle, map[]).builder, map[], AWAIT, s) == Quiet(Woken(None), map[])
    ensures Step(Quiet(Woken(None), map[]).builder, map[], BeginAssign(Some([Summary(9, 7)]), 4, None), s) ==
            Quiet(Fetching({7}), TAKEN)
    ensures Step(Quiet(Fetching({7}), TAKEN).builder, TAKEN, Fetched(Some({7}), 0, None), s) ==
            Quiet(Holding({7}), TAKEN)
  {
    AssignSeven();
  }

  lemma SendStep(s: Settings)
    ensures Step(Quiet(Holding({7}), TAKEN).builder, TAKEN, Send(Offered(FEES, {7}, Accepted(5)), 0, None), s)
         == Busy(Pending(s.maxBlocksToWait, 0), Idle, KEPT)
  {
    assert Confirm(TAKEN, 1, {7}) == KEPT;
  }

  lemma {:induction false} RetrySteps(s: Settings)
    ensures var p := Pending(s.maxBlocksToWait, 0);
            && Step(Busy(p, Idle, KEPT).builder, KEPT, AWAIT, s) == Busy(p, Woken(None), KEPT)
            && Step(Busy(p, Woken(None), KEPT).builder, KEPT, CheckPending(s.maxBlocksToWait, true), s) ==
               Busy(RETRY, Idle, KEPT)
    ensures Step(Busy(RETRY, Idle, KEPT).builder, KEPT, AWAIT, s) == Busy(RETRY, Woken(None), KEPT)
    ensures Step(Busy(RETRY, Woken(None), KEPT).builder, KEPT, BeginAssign(Some([]), 4, None), s) ==
            Busy(RETRY, Fetching({}), KEPT)
  {
    assert SendersOf([]) == {};
  }

  lemma HoldSeven(s: Settings)
    ensures Reached(Quiet(Holding({7}), TAKEN), s)
  {
    var start := Start([1], [None]);
    StartOk([1], [None], s);
    assert start == Alone(Quiet(Idle, map[])) && RunSystem(start, [], s) == start;
    assert BuilderOk(start.builders[0], map[], s);
    assert Reached(Quiet(Idle, map[]), s);
    QuietSteps(s);
    Advance(Quiet(Idle, map[]), AWAIT, s);
    Advance(Quiet(Woken(None), map[]), BeginAssign(Some([Summary(9, 7)]), 4, None), s);
    Advance(Quiet(Fetching({7}), TAKEN), Fetched(Some({7}), 0, None), s);
  }

  lemma SendSeven(s: Settings)
    ensures Reached(Busy(Pending(s.maxBlocksToWait, 0), Idle, KEPT), s)
  {
    HoldSeven(s);
    SendStep(s);
    Advance(Quiet(Holding({7}), TAKEN), Send(Offered(FEES, {7}, Accepted(5)), 0, None), s);
  }

  lemma RetryWithout(s: Settings)
    ensures Reached(Busy(RETRY, Fetching({}), KEPT), s)
  {
    var p := Pending(s.maxBlocksToWait, 0);
    SendSeven(s);
    RetrySteps(s);
    Advance(Busy(p, Idle, KEPT), AWAIT, s);
    Advance(Busy(p, Woken(None), KEPT), CheckPending(s.maxBlocksToWait, true), s);
    Advance(Busy(RETRY, Idle, KEPT), AWAIT, s);
    Advance(Busy(RETRY, Woken(None), KEPT), BeginAssign(Some([]), 4, None), s);
  }

  /** A bundle is sent for a sender, is not mined in time, and the next attempt finds no
      operation: the sender's lock is gone while the transaction is outstanding. */
  lemma CarelessRun(s: Settings) returns (r: After)
    ensures Reached(r, s) && !Covered(r.builder, r.locks)
  {
    var before := Busy(RETRY, Fetching({}), KEPT);
    RetryWithout(s);
    Advance(before, Fetched(Some({}), 2, None), s);
    SevenOutstanding(RETRY, Fetching({}));
    CoverageStep(before.builder, KEPT, Fetched(Some({}), 2, None), s);
    r := Step(before.builder, KEPT, Fetched(Some({}), 2, None), s);
  }

  lemma SevenOutstanding(inner: Inner, phase: Phase)
    ensures Outstanding(SENT) && Covered(Busy(inner, phase, KEPT).builder, KEPT)
  {
    SentSeven();
    var sent := SentTxs(SENT.txs);
    assert sent[0].senders == {7};
    assert 7 in HeldIn(KEPT, Lock(1, Confirmed));
    assert AllConfirmed(sent, KEPT, 1);
  }

  lemma SentSeven()
    ensures SentTxs(SENT.txs) == [Tx(Some(5), FEES, 0, false, 0, {7})]
  {
    var tx := Tx(Some(5), FEES, 0, false, 0, {7});
    SentAppend([], tx);
    assert [] + [tx] == [tx];
  }
}
