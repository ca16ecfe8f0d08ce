/** When a sender moves from one state to another: for each transition the condition under which
    it is made, over single steps and over runs. */
module Transitions {
  import opened Primitives
  import opened Percent
  import opened Locks
  import opened Tracking
  import opened TrackerLaws
  import opened Machines
  import opened Builders
  import opened Coverage

  // ---------------------------------------------------------------- building

  /** The network has refused the bundle for its price, or so it is assumed. */
  predicate RefusedForPrice(attempt: Attempt) {
    attempt.NotSent? && attempt.error !in {NonceTooLow, InsufficientFunds, ConditionNotMet}
  }

  /** So many blocks have passed since the mark; a clock that runs backwards has not moved. */
  predicate Overdue(mark: UnderpricedInfo, block: nat, s: Settings) {
    s.maxUnderpricedBlocks == 0 || block >= mark.sinceBlock + s.maxUnderpricedBlocks
  }

  /** A builder starts to cancel exactly if the fees leave it no operations, it is marked
      underpriced, and the mark is overdue. */
  lemma CancelsExactly(m: Machine, attempt: Attempt, block: nat, fetched: Option<Account>, s: Settings)
    requires m.inner.Building?
    ensures var m' := HandleBuilding(m, attempt, block, fetched, s);
            && (m'.inner.Cancelling? <==>
                attempt.NoOperationsAfterFeeFilter? && m.inner.underpriced.Some?
                && Overdue(m.inner.underpriced.value, block, s))
            && (m'.inner.Cancelling? ==> m'.inner == Cancelling(0) && m'.issued == 0 && m'.tracker == m.tracker)
            && !m'.inner.CancelPending?
  {
  }

  /** A builder waits for its bundle exactly if it was sent, until the deadline that starts then. */
  lemma PendsExactly(m: Machine, attempt: Attempt, block: nat, fetched: Option<Account>, s: Settings)
    requires m.inner.Building?
    ensures var m' := HandleBuilding(m, attempt, block, fetched, s);
            && (m'.inner.Pending? <==> attempt.Success?)
            && (attempt.Success? ==> m'.inner == Pending(block + s.maxBlocksToWait, m.inner.increases)
                                     && m'.tracker == m.tracker)
  {
  }

  /** The mark keeps the block of the first refusal over all further refusals and rounds. It is set
      by a refusal, and survives only those and attempts without operations or a condition. */
  lemma MarkExactly(m: Machine, attempt: Attempt, block: nat, fetched: Option<Account>, s: Settings)
    requires m.inner.Building? && HandleBuilding(m, attempt, block, fetched, s).inner.Building?
    ensures var before, after := m.inner.underpriced, HandleBuilding(m, attempt, block, fetched, s).inner.underpriced;
            && (after.Some? <==>
                || RefusedForPrice(attempt)
                || (before.Some? && (attempt == NotSent(ConditionNotMet) || attempt.NoOperationsInitially?
                                     || attempt.NoOperationsAfterSimulation? || attempt.NoOperationsAfterFeeFilter?)))
            && (after.Some? && before.Some? ==>
                  && after.value.sinceBlock == before.value.sinceBlock
                  && after.value.rounds == before.value.rounds + if attempt.NoOperationsAfterFeeFilter? then 1 else 0)
            && (after.Some? && before.None? ==> after.value == UnderpricedInfo(block, 1))
  {
  }

  /** Every refusal raises the number of fee increases; a fresh start, a round that is over and an
      error set it back. */
  lemma IncreasesExactly(m: Machine, attempt: Attempt, block: nat, fetched: Option<Account>, s: Settings)
    requires m.inner.Building? && HandleBuilding(m, attempt, block, fetched, s).inner.Building?
    ensures var before, after := m.inner, HandleBuilding(m, attempt, block, fetched, s).inner;
            after.increases ==
              if RefusedForPrice(attempt) then before.increases + 1
              else if attempt == NotSent(ConditionNotMet) || attempt.NoOperationsInitially?
                      || attempt.NoOperationsAfterSimulation? then before.increases
              else 0
  {
  }

  /** The next attempt waits for a trigger, unless the tracker is reset or a condition has failed. */
  lemma TriggerExactly(m: Machine, attempt: Attempt, block: nat, fetched: Option<Account>, s: Settings)
    requires m.inner.Building? && HandleBuilding(m, attempt, block, fetched, s).inner.Building?
    ensures HandleBuilding(m, attempt, block, fetched, s).inner.waitForTrigger <==>
            attempt !in {NotSent(NonceTooLow), NotSent(InsufficientFunds), NotSent(ConditionNotMet)}
  {
  }

  /** What was sent is abandoned exactly if a raised price finds no operations, and no longer once
      the network says that it is in the way. */
  lemma AbandonsExactly(m: Machine, attempt: Attempt, block: nat, fetched: Option<Account>, s: Settings)
    requires m.inner.Building?
    ensures var m' := HandleBuilding(m, attempt, block, fetched, s);
            var noneLeft := || ((attempt.NoOperationsInitially? || attempt.NoOperationsAfterSimulation?)
                                && m.inner.increases > 0)
                            || (attempt.NoOperationsAfterFeeFilter? && !m'.inner.Cancelling?
                                && (m.inner.underpriced.Some? || m.inner.increases > 0));
            && (m'.tracker.abandoned <==>
                  noneLeft || (m.tracker.abandoned && attempt != NotSent(ReplacementUnderpriced)
                               && !attempt.AttemptError?))
            && (noneLeft ==> m'.tracker.attempts == 0)
            && (!noneLeft && !attempt.AttemptError? ==> m'.tracker.attempts == m.tracker.attempts)
  {
  }

  // ---------------------------------------------------------------- waiting

  /** A builder that waits for its bundle goes on to build when it is mined, starts over when the
      nonce was used by another, and raises its price when the deadline has passed. */
  lemma PendingExactly(m: Machine, update: Option<TrackerUpdate>, block: nat, mustWait: bool)
    requires m.inner.Pending?
    ensures var m' := HandlePending(m, update, block, mustWait);
            && (m'.inner.Pending? <==> update.None? && block < m.inner.until)
            && (m'.inner.Pending? ==> m' == m)
            && (update.Some? && update.value.Mined? ==> m'.inner == Building(mustWait, 0, None)
                                                        && m'.requiresReset == m.requiresReset)
            && (update.Some? && !update.value.Mined? ==> m'.inner == Building(false, 0, None) && m'.requiresReset)
            && (update.None? && block >= m.inner.until ==> m'.inner == Building(false, m.inner.increases + 1, None)
                                                           && m'.requiresReset == m.requiresReset)
  {
  }

  /** A cancellation that was sent is waited for; one that was refused for its price is raised while
      the maximum allows it; anything else ends the episode. Only a soft cancellation releases. */
  lemma CancellingExactly(m: Machine, estimated: GasFees, answer: CancelAnswer, block: nat, s: Settings)
    requires m.inner.Cancelling?
    ensures var h := HandleCancelling(m, estimated, answer, block, s);
            var refused := answer.CancelRefused? && answer.error in {TxRejected, Underpriced, ReplacementUnderpriced};
            && h.machine.issued == m.issued + 1
            && (answer.CancelSent? ==> h.machine.inner == CancelPending(block + s.maxBlocksToWait, m.inner.increases))
            && (refused && m.inner.increases < s.maxCancelIncreases ==>
                  h.machine.inner == Cancelling(m.inner.increases + 1))
            && (!answer.CancelSent? && !(refused && m.inner.increases < s.maxCancelIncreases) ==>
                  h.machine.inner == Building(false, 0, None) && h.machine.requiresReset)
            && (h.release <==> answer.SoftCancelled?)
  {
  }

  /** A cancellation that is not mined by its deadline is raised, or abandoned at the maximum; only
      then locks are released. */
  lemma CancelPendingExactly(m: Machine, update: Option<TrackerUpdate>, block: nat, s: Settings)
    requires m.inner.CancelPending?
    ensures var h := HandleCancelPending(m, update, block, s);
            var late := update.None? && block >= m.inner.until;
            && (h.machine.inner.CancelPending? <==> update.None? && block < m.inner.until)
            && (h.machine.inner.CancelPending? ==> h.machine == m)
            && (late && m.inner.increases < s.maxCancelIncreases ==>
                  h.machine.inner == Cancelling(m.inner.increases + 1))
            && (update.Some? || (late && m.inner.increases >= s.maxCancelIncreases) ==>
                  h.machine.inner == Building(false, 0, None) && h.machine.requiresReset)
            && (h.release <==> late && m.inner.increases >= s.maxCancelIncreases)
  {
  }

  // ---------------------------------------------------------------- attempts and locks

  /** What comes of an attempt: it succeeds if there is a bundle that the tracker accepts and the
      network takes, and what the network says otherwise is passed on, unless it is unknown. */
  lemma AttemptExactly(m: Machine, offer: Offer, percent: nat)
    ensures var attempt := SendBundle(m, offer, percent).1;
            match offer
            case ProposerFailed => attempt == AttemptError
            case NothingAfterFees => attempt == NoOperationsAfterFeeFilter
            case NothingAfterSimulation => attempt == NoOperationsAfterSimulation
            case Offered(fees, senders, answer) =>
              var t := m.tracker;
              if !(t.abandoned || t.txs == [] || Replaces(fees, t.txs[|t.txs| - 1].fees, percent))
                 || answer == Tracking.Refused(Other)
              then attempt == AttemptError
              else if answer.Accepted? then attempt == Success(senders)
              else attempt == NotSent(answer.error)
  {
    if offer.Offered? { AcceptableExactly(m.tracker, Some(m.tracker.nonce), offer.fees, percent); }
  }

  /** A success confirms what was sent. A failure keeps what is confirmed while transactions are
      outstanding, except a used nonce. Everything else lets go of all. */
  lemma SettledExactly(locks: LockMap, builder: Address, attempt: Attempt, pending: nat)
    requires attempt.Success? ==> attempt.senders <= HeldBy(locks, builder)
    ensures var held := HeldBy(LocksAfter(locks, builder, attempt, pending), builder);
            var confirmed := HeldIn(locks, Lock(builder, Confirmed));
            var fails := attempt.NoOperationsAfterFeeFilter? || attempt.AttemptError?
                         || (attempt.NotSent? && !attempt.error.NonceTooLow?);
            held == if attempt.Success? then confirmed + attempt.senders
                    else if fails && pending > 0 then confirmed
                    else {}
  {
    ReleaseExactly(locks, builder);
    ConfirmExactly(locks, builder, if attempt.Success? then attempt.senders else {});
  }

  /** A builder that is cancelling, or builds without a trigger, does not wait. Any other looks at
      the update that comes with the trigger. A reset that is due is done first. */
  lemma WaitExactly(m: Machine, wake: Wake)
    ensures var (m', r) := WaitForTrigger(m, wake);
            var t := if m.requiresReset then Reset(m.tracker, wake.fetched) else m.tracker;
            var waits := m.inner.Pending? || m.inner.CancelPending? || (m.inner.Building? && m.inner.waitForTrigger);
            && m' == m.(tracker := m'.tracker, requiresReset := false)
            && (waits && wake.trigger.TriggerFailed? ==> r == UpdateError && m'.tracker == t)
            && (waits && wake.trigger.Triggered? && wake.trigger.update.Some? ==>
                  (m'.tracker, r) == ProcessUpdate(t, wake.trigger.update.value, wake.receipts))
            && (!waits || wake.trigger == Triggered(None) ==> r == Updated(None) && m'.tracker == t)
  {
  }

  // ---------------------------------------------------------------- pieces of a step

  /** Waking up lets go of all locks exactly if there is an error, which also ends the step, or an
      update. */
  lemma WakeUpExactly(b: Builder, locks: LockMap, wake: Wake, s: Settings)
    requires Enabled(b, WakeUp(wake))
    ensures var r, result := Step(b, locks, WakeUp(wake), s), WaitForTrigger(b.machine, wake).1;
            && (r.builder.phase == if result.UpdateError? then Idle else Woken(result.update))
            && (r.locks == if result == Updated(None) then locks else ReleaseAll(locks, b.address))
            && (result.UpdateError? ==> r.builder.machine.inner == Building(false, 0, None)
                                        && r.builder.machine.requiresReset)
            && (result.Updated? ==> r.builder.machine == WaitForTrigger(b.machine, wake).0)
  {
  }

  /** Operations are taken from what the pool has, and only then: an error of the pool ends the step
      and leaves the locks alone. */
  lemma AssignExactly(b: Builder, locks: LockMap, summaries: Option<seq<Summary>>, max: nat, account: Option<Account>,
                      s: Settings)
    requires Enabled(b, BeginAssign(summaries, max, account))
    ensures var r := Step(b, locks, BeginAssign(summaries, max, account), s);
            if summaries.None? then
              r.locks == locks && r.builder.phase.Idle? && r.builder.machine.inner == Building(true, 0, None)
            else
              && r.builder.machine == b.machine && r.builder.phase.Fetching?
              && r.builder.phase.returned ==
                 SendersOf(Take(AvailableOps(locks, b.address, summaries.value), Max(max, 1)))
              && Extends(locks, r.locks, b.address, r.builder.phase.returned)
  {
    if summaries.Some? {
      AssignReturns(locks, b.address, summaries.value, [], max);
      AssignExtends(locks, b.address, summaries.value, [], max);
      var taken := Take(AvailableOps(locks, b.address, summaries.value), Max(max, 1));
      assert [] + taken == taken;
    }
  }

  /** If the pool returns no operations everything is let go; if it fails, nothing is. */
  lemma FetchExactly(b: Builder, locks: LockMap, ops: Option<set<Address>>, block: nat, account: Option<Account>,
                     s: Settings)
    requires Enabled(b, Fetched(ops, block, account))
    ensures var r := Step(b, locks, Fetched(ops, block, account), s);
            && (r.locks == if ops == Some({}) then ReleaseAll(locks, b.address) else locks)
            && (r.builder.phase == if ops.Some? && ops.value != {} then Holding(ops.value) else Idle)
            && (ops.None? ==> r.builder.machine == HandleBuilding(b.machine, AttemptError, block, account, s))
            && (ops == Some({}) ==>
                  r.builder.machine == HandleBuilding(b.machine, NoOperationsInitially, block, account, s))
            && (ops.Some? && ops.value != {} ==> r.builder.machine == b.machine)
  {
  }

  /** Sending settles the locks by what came of it, and ends the step. */
  lemma SendPieceExactly(b: Builder, locks: LockMap, offer: Offer, block: nat, account: Option<Account>, s: Settings)
    requires Enabled(b, Send(offer, block, account))
    ensures var r := Step(b, locks, Send(offer, block, account), s);
            var (m, attempt) := SendBundle(b.machine, offer, s.percent);
            && r.builder.phase.Idle? && r.builder.address == b.address
            && r.builder.machine == HandleBuilding(m, attempt, block, account, s)
            && r.locks == LocksAfter(locks, b.address, attempt, |SentTxs(m.tracker.txs)|)
  {
  }

  /** Waiting looks at the update that came with the wake-up, and leaves the locks alone. */
  lemma CheckExactly(b: Builder, locks: LockMap, block: nat, mustWait: bool, s: Settings)
    requires Enabled(b, CheckPending(block, mustWait))
    ensures var r := Step(b, locks, CheckPending(block, mustWait), s);
            && r == After(Builder(b.address, HandlePending(b.machine, b.phase.update, block, mustWait), Idle), locks)
            && (r.builder.machine.inner.Pending? <==> b.phase.update.None? && block < b.machine.inner.until)
  {
  }

  /** Cancelling, and waiting for a cancellation, let go of all locks exactly if it was soft, or is
      abandoned at the maximum. */
  lemma CancelPieceExactly(b: Builder, locks: LockMap, e: Event, s: Settings)
    requires Enabled(b, e) && (e.Cancel? || e.CheckCancelled?)
    ensures var r := Step(b, locks, e, s);
            var release := if e.Cancel? then e.answer.SoftCancelled?
                           else && b.phase.update.None? && e.block >= b.machine.inner.until
                                && b.machine.inner.increases >= s.maxCancelIncreases;
            && r.builder.phase.Idle? && r.builder.address == b.address
            && r.locks == (if release then ReleaseAll(locks, b.address) else locks)
            && (e.CheckCancelled? && b.phase.update.None? && e.block < b.machine.inner.until ==>
                  r.builder.machine == b.machine)
            && (e.CheckCancelled? && b.phase.update.Some? ==> r.builder.machine.inner == Building(false, 0, None))
  {
    if e.Cancel? {
      CancellingExactly(b.machine, e.estimated, e.answer, e.block, s);
    } else {
      CancelPendingExactly(b.machine, b.phase.update, e.block, s);
    }
  }

  // ---------------------------------------------------------------- runs

  /** Since when a builder is marked. */
  function MarkedSince(b: Builder): Option<nat> {
    if b.machine.inner.Building? && b.machine.inner.underpriced.Some?
    then Some(b.machine.inner.underpriced.value.sinceBlock) else None
  }

  /** The move is a refusal of the builder's bundle, at this block. */
  predicate RefusedAt(b: Builder, e: Event, block: nat, s: Settings) {
    e.Send? && e.block == block && RefusedForPrice(SendBundle(b.machine, e.offer, s.percent).1)
  }

  lemma {:induction false} MarkAttempt(b: Builder, locks: LockMap, e: Event, s: Settings)
    requires BuilderOk(b, locks, s) && Enabled(b, e) && e.Send?
    ensures var since := MarkedSince(Step(b, locks, e, s).builder);
            since.Some? ==> since == MarkedSince(b) || (MarkedSince(b).None? && RefusedAt(b, e, since.value, s))
  {
    SendBundleKeeps(b.machine, e.offer, s);
    var (m', attempt) := SendBundle(b.machine, e.offer, s.percent);
    if HandleBuilding(m', attempt, e.block, e.account, s).inner.Building? {
      MarkExactly(m', attempt, e.block, e.account, s);
    }
  }

  lemma {:induction false} MarkStep(b: Builder, locks: LockMap, e: Event, s: Settings)
    requires BuilderOk(b, locks, s) && Enabled(b, e)
    ensures var since := MarkedSince(Step(b, locks, e, s).builder);
            since.Some? ==> since == MarkedSince(b) || (MarkedSince(b).None? && RefusedAt(b, e, since.value, s))
  {
    match e
    case WakeUp(wake) => WaitKeeps(b.machine, wake, s);
    case BeginAssign(summaries, max, account) =>
    case Fetched(ops, block, account) =>
    case Send(offer, block, account) => MarkAttempt(b, locks, e, s);
    case CheckPending(block, mustWait) => PendingExactly(b.machine, b.phase.update, block, mustWait);
    case Cancel(estimated, answer, block) => CancellingExactly(b.machine, estimated, answer, block, s);
    case CheckCancelled(block) => CancelPendingExactly(b.machine, b.phase.update, block, s);
  }

  lemma NextMark(sys: System, move: Move, i: nat, s: Settings)
    requires SystemOk(sys, s) && CanMove(sys, move) && i in sys.builders
    ensures var since := MarkedSince(Next(sys, move, s).builders[i]);
            since.Some? ==>
              || since == MarkedSince(sys.builders[i])
              || (MarkedSince(sys.builders[i]).None? && move.id == i
                  && RefusedAt(sys.builders[i], move.event, since.value, s))
  {
    if move.id == i {
      assert BuilderOk(sys.builders[i], sys.locks, s);
      MarkStep(sys.builders[i], sys.locks, move.event, s);
    }
  }

  /** The builder is refused at this block at some point of the run. */
  predicate RefusedIn(sys: System, moves: seq<Move>, i: nat, block: nat, s: Settings)
    requires IsRun(sys, moves, s) && i in sys.builders
    decreases |moves|
  {
    moves != [] &&
    (|| (moves[0].id == i && RefusedAt(sys.builders[i], moves[0].event, block, s))
     || RefusedIn(Next(sys, moves[0], s), moves[1..], i, block, s))
  }

  /** In every run a mark comes from a refusal of one of the builder's own bundles, at the block the
      mark carries, unless it was there from the start. */
  lemma {:induction false} MarkHistory(sys: System, moves: seq<Move>, i: nat, s: Settings)
    requires SystemOk(sys, s) && IsRun(sys, moves, s) && i in sys.builders
    ensures i in RunSystem(sys, moves, s).builders
    ensures var since := MarkedSince(RunSystem(sys, moves, s).builders[i]);
            since.Some? ==> since == MarkedSince(sys.builders[i]) || RefusedIn(sys, moves, i, since.value, s)
    decreases |moves|
  {
    if moves != [] {
      NextOk(sys, moves[0], s);
      NextMark(sys, moves[0], i, s);
      MarkHistory(Next(sys, moves[0], s), moves[1..], i, s);
    }
  }

  /** So a builder that starts to cancel has been refused so many blocks ago. */
  lemma CancelHistory(addresses: seq<Address>, accounts: seq<Option<Account>>, moves: seq<Move>, move: Move,
                      s: Settings)
    returns (block: nat)
    requires |accounts| == |addresses| && Distinct(addresses)
    requires IsRun(Start(addresses, accounts), moves, s)
    requires CanMove(RunSystem(Start(addresses, accounts), moves, s), move)
    requires var end := RunSystem(Start(addresses, accounts), moves, s);
             end.builders[move.id].machine.inner.Building?
             && Next(end, move, s).builders[move.id].machine.inner.Cancelling?
    ensures move.id in Start(addresses, accounts).builders
    ensures RefusedIn(Start(addresses, accounts), moves, move.id, block, s)
    ensures move.event.Send? && Overdue(UnderpricedInfo(block, 0), move.event.block, s)
  {
    var start, i := Start(addresses, accounts), move.id;
    var end := RunSystem(start, moves, s);
    StartOk(addresses, accounts, s);
    RunOk(start, moves, s);
    SameBuilders(start, moves, s);
    assert BuilderOk(end.builders[i], end.locks, s);
    CancelStarts(end.builders[i], end.locks, move.event, s);
    block := MarkedSince(end.builders[i]).value;
    MarkHistory(start, moves, i, s);
  }

  lemma {:induction false} SameBuilders(sys: System, moves: seq<Move>, s: Settings)
    requires IsRun(sys, moves, s)
    ensures RunSystem(sys, moves, s).builders.Keys == sys.builders.Keys
    decreases |moves|
  {
    if moves != [] { SameBuilders(Next(sys, moves[0], s), moves[1..], s); }
  }

  lemma {:induction false} CancelStarts(b: Builder, locks: LockMap, e: Event, s: Settings)
    requires BuilderOk(b, locks, s) && Enabled(b, e) && b.machine.inner.Building?
    requires Step(b, locks, e, s).builder.machine.inner.Cancelling?
    ensures e.Send? && MarkedSince(b).Some? && Overdue(UnderpricedInfo(MarkedSince(b).value, 0), e.block, s)
  {
    if e.WakeUp? { WaitKeeps(b.machine, e.wake, s); }
    if e.Send? {
      SendBundleKeeps(b.machine, e.offer, s);
      var (m', attempt) := SendBundle(b.machine, e.offer, s.percent);
      CancelsExactly(m', attempt, e.block, e.account, s);
    }
  }

  // ---------------------------------------------------------------- a run that cancels

  const UNPAID := Tracker(0, 0, [Tx(None, FEES, 0, false, 0, {7})], false, 1)
  const MARKED := Building(true, 1, Some(UnderpricedInfo(0, 1)))

  function Refused(inner: Inner, phase: Phase, locks: LockMap): After {
    After(Builder(1, Machine(inner, false, UNPAID, 0, {}), phase), locks)
  }

  lemma RefusalStep(s: Settings)
    ensures var send := Send(Offered(FEES, {7}, Tracking.Refused(Underpriced)), 0, None);
            Step(Quiet(Holding({7}), TAKEN).builder, TAKEN, send, s) == Refused(MARKED, Idle, map[])
  {
    SentAppend([], UNPAID.txs[0]);
    assert [] + UNPAID.txs == UNPAID.txs && SentTxs(UNPAID.txs) == [];
    assert ReleaseAll(TAKEN, 1) == map[];
  }

  lemma RefusedSteps(s: Settings)
    ensures Step(Refused(MARKED, Idle, map[]).builder, map[], AWAIT, s) == Refused(MARKED, Woken(None), map[])
    ensures Step(Refused(MARKED, Woken(None), map[]).builder, map[], BeginAssign(Some([Summary(9, 7)]), 4, None), s) ==
            Refused(MARKED, Fetching({7}), TAKEN)
    ensures Step(Refused(MARKED, Fetching({7}), TAKEN).builder, TAKEN, Fetched(Some({7}), 0, None), s) ==
            Refused(MARKED, Holding({7}), TAKEN)
  {
    AssignSeven();
  }

  lemma FeeFilterStep(s: Settings)
    ensures var send := Send(NothingAfterFees, s.maxUnderpricedBlocks, None);
            Step(Refused(MARKED, Holding({7}), TAKEN).builder, TAKEN, send, s) == Refused(Cancelling(0), Idle, map[])
  {
    SentAppend([], UNPAID.txs[0]);
    assert [] + UNPAID.txs == UNPAID.txs && SentTxs(UNPAID.txs) == [];
    assert ReleaseAll(TAKEN, 1) == map[];
  }

  /** A builder whose bundle is refused, and who finds nothing at a higher price once the mark is
      overdue, cancels, under all settings. */
  lemma CancellingRun(s: Settings)
    ensures Reached(Refused(Cancelling(0), Idle, map[]), s)
  {
    HoldSeven(s);
    RefusalStep(s);
    Advance(Quiet(Holding({7}), TAKEN), Send(Offered(FEES, {7}, Tracking.Refused(Underpriced)), 0, None), s);
    RefusedSteps(s);
    Advance(Refused(MARKED, Idle, map[]), AWAIT, s);
    Advance(Refused(MARKED, Woken(None), map[]), BeginAssign(Some([Summary(9, 7)]), 4, None), s);
    Advance(Refused(MARKED, Fetching({7}), TAKEN), Fetched(Some({7}), 0, None), s);
    FeeFilterStep(s);
    Advance(Refused(MARKED, Holding({7}), TAKEN), Send(NothingAfterFees, s.maxUnderpricedBlocks, None), s);
  }

  /** And goes on to wait for its cancellation. */
  lemma CancelPendingRun(s: Settings) returns (r: After)
    ensures Reached(r, s) && r.builder.machine.inner.CancelPending?
  {
    var idle, woken := Refused(Cancelling(0), Idle, map[]), Refused(Cancelling(0), Woken(None), map[]);
    CancellingRun(s);
    Advance(idle, AWAIT, s);
    assert Step(idle.builder, map[], AWAIT, s) == woken;
    Advance(woken, Cancel(FEES, CancelSent(6), 0), s);
    CancellingExactly(woken.builder.machine, FEES, CancelSent(6), 0, s);
    r := Step(woken.builder, map[], Cancel(FEES, CancelSent(6), 0), s);
  }
}
