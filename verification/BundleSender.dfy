/** The bundle sender as the program keeps it: its own state, its tracker and the assigner it
    shares with the other senders, updated in place (bundle_sender.rs). */
module Senders {
  import opened Primitives
  import opened Percent
  import opened Locks
  import opened Tracking
  import opened Machines
  import opened Builders
  import opened Assigning
  import opened Trackers

  class BundleSender {
    var inner: Inner
    var requiresReset: bool
    ghost var issued: nat
    ghost var latest: set<Address>
    var phase: Phase
    const address: Address
    const settings: Settings
    const tracker: TransactionTracker
    const assigner: Assigner

    ghost function Value(): Machine
      reads this, tracker
    {
      Machine(inner, requiresReset, tracker.Value(), issued, latest)
    }

    /** The sender, where it is in its step, and the shared locks. */
    ghost function At(): After
      reads this, tracker, assigner
    {
      After(Builder(address, Value(), phase), assigner.locks)
    }

    ghost predicate Valid()
      reads this, tracker, assigner
    {
      && tracker.Valid() && assigner.Valid() && tracker.percent == settings.percent
      && BuilderOk(At().builder, assigner.locks, settings)
    }

    /** A sender on a tracker that has just been created. */
    constructor (address: Address, settings: Settings, tracker: TransactionTracker, assigner: Assigner)
      requires tracker.Valid() && assigner.Valid() && tracker.percent == settings.percent
      ensures Valid() && phase == Idle && Value() == Machine(INITIAL, false, tracker.Value(), 0, {})
      ensures this.address == address && this.settings == settings && this.tracker == tracker
              && this.assigner == assigner
    {
      this.address, this.settings, this.tracker, this.assigner := address, settings, tracker, assigner;
      inner, requiresReset, issued, latest, phase := INITIAL, false, 0, {}, Idle;
    }

    method Restart()
      modifies `inner, `requiresReset
      ensures Value() == Machines.Restart(old(Value()))
    {
      requiresReset := true;
      inner := RESTART;
    }

    method WaitForTrigger(wake: Wake) returns (r: UpdateResult)
      requires tracker.Valid()
      modifies `requiresReset, tracker
      ensures tracker.Valid() && (Value(), r) == Machines.WaitForTrigger(old(Value()), wake)
    {
      if requiresReset {
        tracker.Reset(wake.fetched);
        requiresReset := false;
      }
      if inner.Cancelling? || (inner.Building? && !inner.waitForTrigger) { return Updated(None); }
      if wake.trigger.TriggerFailed? { return UpdateError; }
      if wake.trigger.update.None? { return Updated(None); }
      r := tracker.ProcessUpdate(wake.trigger.update.value, wake.receipts);
    }

    /** Waking up, with the release that a reported update or an error brings. */
    method WakeUp(wake: Wake)
      requires Valid() && Enabled(At().builder, Builders.WakeUp(wake))
      modifies this, tracker, assigner
      ensures Valid() && At() == Step(old(At()).builder, old(assigner.locks), Builders.WakeUp(wake), settings)
    {
      StepKeeps(At().builder, assigner.locks, Builders.WakeUp(wake), settings);
      var r := WaitForTrigger(wake);
      if r.UpdateError? {
        assigner.Release(address);
        Restart();
      } else {
        if r.update.Some? { assigner.Release(address); }
        phase := Woken(r.update);
      }
    }

    // -------------------------------------------------------------- building

    method NoOperations()
      requires inner.Building?
      modifies `inner
      ensures Value() == Machines.NoOperations(old(Value()))
    {
      inner := inner.(waitForTrigger := true);
    }

    method HandleAttempt(attempt: Attempt, block: nat, account: Option<Account>)
      requires inner.Building? && tracker.Valid()
      modifies `inner, `requiresReset, `issued, `latest, tracker
      ensures tracker.Valid() && Value() == HandleBuilding(old(Value()), attempt, block, account, settings)
    {
      match attempt {
        case Success(_) => inner := Pending(block + settings.maxBlocksToWait, inner.increases);
        case NoOperationsAfterFeeFilter => HandleFeeFilter(block);
        case AttemptError =>
          inner := INITIAL;
          tracker.Reset(account);
        case NotSent(error) =>
          if error == NonceTooLow || error == InsufficientFunds {
            Restart();
          } else if error == ConditionNotMet {
            inner := inner.(waitForTrigger := false);
          } else {
            if error == ReplacementUnderpriced { tracker.Unabandon(); }
            inner := MarkUnderpriced(inner, block);
          }
        case _ =>
          if inner.increases > 0 { tracker.Abandon(); }
          NoOperations();
      }
    }

    method HandleFeeFilter(block: nat)
      requires inner.Building? && tracker.Valid()
      modifies `inner, `requiresReset, `issued, `latest, tracker
      ensures tracker.Valid() && Value() == AfterFeeFilter(old(Value()), block, settings)
    {
      var u := inner.underpriced;
      if u.Some? {
        if SatSub(block, u.value.sinceBlock) >= settings.maxUnderpricedBlocks {
          inner := Cancelling(0);
          issued := 0;
        } else {
          tracker.Abandon();
          inner := Building(true, 0, Some(u.value.(rounds := u.value.rounds + 1)));
        }
      } else if inner.increases > 0 {
        tracker.Abandon();
        inner := INITIAL;
      } else {
        NoOperations();
      }
    }

    method SendBundleInner(offer: Offer) returns (attempt: Attempt)
      requires tracker.Valid() && tracker.percent == settings.percent
      modifies `inner, `requiresReset, `issued, `latest, tracker
      ensures tracker.Valid() && (Value(), attempt) == SendBundle(old(Value()), offer, settings.percent)
    {
      match offer {
        case ProposerFailed => return AttemptError;
        case NothingAfterFees => return NoOperationsAfterFeeFilter;
        case NothingAfterSimulation => return NoOperationsAfterSimulation;
        case Offered(fees, senders, answer) =>
          var result := tracker.SendTransaction(Some(tracker.nonce), fees, senders, answer);
          if result.Sent? {
            latest := senders;
            return Success(senders);
          }
          return if result.Failed? && !result.error.Other? then NotSent(result.error) else AttemptError;
      }
    }

    method SettleLocks(attempt: Attempt)
      requires assigner.Valid() && HeldBy(assigner.locks, address) != {}
      requires attempt.Success? ==> attempt.senders <= HeldBy(assigner.locks, address)
      modifies assigner
      ensures assigner.Valid()
              && assigner.locks == LocksAfter(old(assigner.locks), address, attempt, |SentTxs(tracker.transactions)|)
    {
      match attempt {
        case Success(senders) => assigner.ConfirmSendersDropUnused(address, senders);
        case NoOperationsInitially => assigner.Release(address);
        case NoOperationsAfterSimulation => assigner.Release(address);
        case _ =>
          var pending := tracker.NumPendingTransactions();
          if attempt == NotSent(NonceTooLow) || pending == 0 {
            assigner.Release(address);
          } else {
            assigner.ConfirmSendersDropUnused(address, {});
          }
      }
    }

    /** Takes operations from the assigner, or gives up when the pool cannot be read. */
    method BeginAssign(summaries: Option<seq<Summary>>, account: Option<Account>)
      requires Valid() && Enabled(At().builder, Builders.BeginAssign(summaries, assigner.maxBundleSize, account))
      modifies this, tracker, assigner
      ensures Valid()
      ensures At() == Step(old(At()).builder, old(assigner.locks),
                           Builders.BeginAssign(summaries, assigner.maxBundleSize, account), settings)
    {
      StepKeeps(At().builder, assigner.locks, Builders.BeginAssign(summaries, assigner.maxBundleSize, account),
          settings);
      if summaries.None? {
        HandleAttempt(AttemptError, 0, account);
        phase := Idle;
      } else {
        var returned := assigner.AssignOperations(address, summaries.value);
        phase := Fetching(SendersOf(returned));
      }
    }

    /** Goes on with the operations the pool returned, if any. */
    method Fetched(ops: Option<set<Address>>, block: nat, account: Option<Account>)
      requires Valid() && Enabled(At().builder, Builders.Fetched(ops, block, account))
      modifies this, tracker, assigner
      ensures Valid()
              && At() == Step(old(At()).builder, old(assigner.locks), Builders.Fetched(ops, block, account), settings)
    {
      StepKeeps(At().builder, assigner.locks, Builders.Fetched(ops, block, account), settings);
      if ops.None? {
        HandleAttempt(AttemptError, block, account);
        phase := Idle;
      } else if ops.value == {} {
        assigner.Release(address);
        HandleAttempt(NoOperationsInitially, block, account);
        phase := Idle;
      } else {
        phase := Holding(ops.value);
      }
    }

    method SendHeld(offer: Offer, block: nat, account: Option<Account>)
      requires Valid() && Enabled(At().builder, Send(offer, block, account))
      modifies this, tracker, assigner
      ensures Valid() && At() == Step(old(At()).builder, old(assigner.locks), Send(offer, block, account), settings)
    {
      StepKeeps(At().builder, assigner.locks, Send(offer, block, account), settings);
      SendBundleKeeps(Value(), offer, settings);
      var attempt := SendBundleInner(offer);
      SettleLocks(attempt);
      HandleAttempt(attempt, block, account);
      phase := Idle;
    }

    // -------------------------------------------------------------- waiting and cancelling

    method HandlePendingState(block: nat, mustWait: bool)
      requires Valid() && Enabled(At().builder, CheckPending(block, mustWait))
      modifies this
      ensures Valid() && At() == Step(old(At()).builder, old(assigner.locks), CheckPending(block, mustWait), settings)
    {
      StepKeeps(At().builder, assigner.locks, CheckPending(block, mustWait), settings);
      if phase.update.Some? {
        if phase.update.value.Mined? { inner := Building(mustWait, 0, None); } else { Restart(); }
      } else if block >= inner.until {
        inner := Building(false, inner.increases + 1, None);
      }
      phase := Idle;
    }

    method HandleCancellingState(estimated: GasFees, answer: CancelAnswer, block: nat)
      requires Valid() && Enabled(At().builder, Cancel(estimated, answer, block))
      modifies this, tracker, assigner
      ensures Valid()
              && At() == Step(old(At()).builder, old(assigner.locks), Cancel(estimated, answer, block), settings)
    {
      ghost var b := At().builder;
      ghost var h := HandleCancelling(b.machine, estimated, answer, block, settings);
      CancelPiece(b, assigner.locks, estimated, answer, block, settings, h);
      CancelLast(estimated, answer, block);
      phase := Idle;
    }

    method CancelLast(estimated: GasFees, answer: CancelAnswer, block: nat)
      requires inner.Cancelling? && assigner.Valid() && tracker.Valid() && tracker.percent == settings.percent
      modifies `inner, `requiresReset, `issued, `latest, tracker, assigner
      ensures assigner.Valid() && tracker.Valid()
      ensures var h := HandleCancelling(old(Value()), estimated, answer, block, settings);
              Value() == h.machine && assigner.locks == h.Locks(old(assigner.locks), address)
    {
      var result := tracker.CancelTransaction(estimated, answer);
      issued := issued + 1;
      HandleCancelResult(result, block);
    }

    method HandleCancelResult(result: SendResult, block: nat)
      requires inner.Cancelling? && assigner.Valid()
      modifies `inner, `requiresReset, assigner
      ensures assigner.Valid()
      ensures var h := AfterCancel(old(Value()), result, block, settings);
              Value() == h.machine && assigner.locks == h.Locks(old(assigner.locks), address)
    {
      match result {
        case Sent(_) => inner := CancelPending(block + settings.maxBlocksToWait, inner.increases);
        case SoftCancel =>
          assigner.Release(address);
          Restart();
        case Failed(error) =>
          if error in {TxRejected, Underpriced, ReplacementUnderpriced}
              && inner.increases < settings.maxCancelIncreases {
            inner := Cancelling(inner.increases + 1);
          } else {
            Restart();
          }
      }
    }

    method HandleCancelPendingState(block: nat)
      requires Valid() && Enabled(At().builder, CheckCancelled(block))
      modifies this, assigner
      ensures Valid() && At() == Step(old(At()).builder, old(assigner.locks), CheckCancelled(block), settings)
    {
      StepKeeps(At().builder, assigner.locks, CheckCancelled(block), settings);
      if phase.update.Some? {
        Restart();
      } else if block >= inner.until {
        if inner.increases >= settings.maxCancelIncreases {
          assigner.Release(address);
          Restart();
        } else {
          inner := Cancelling(inner.increases + 1);
        }
      }
      phase := Idle;
    }

    // -------------------------------------------------------------- steps

    /** The next piece of the step. */
    method Perform(e: Event)
      requires Valid() && Enabled(At().builder, e) && (e.BeginAssign? ==> e.max == assigner.maxBundleSize)
      modifies this, tracker, assigner
      ensures Valid() && At() == Step(old(At()).builder, old(assigner.locks), e, settings)
    {
      match e {
        case WakeUp(wake) => WakeUp(wake);
        case BeginAssign(summaries, max, account) => BeginAssign(summaries, account);
        case Fetched(ops, block, account) => Fetched(ops, block, account);
        case Send(offer, block, account) => SendHeld(offer, block, account);
        case CheckPending(block, mustWait) => HandlePendingState(block, mustWait);
        case Cancel(estimated, answer, block) => HandleCancellingState(estimated, answer, block);
        case CheckCancelled(block) => HandleCancelPendingState(block);
      }
    }

    method HandleBuildingState(a: Answers)
      requires Valid() && phase.Woken? && inner.Building? && Faithful(a) && a.max == assigner.maxBundleSize
      modifies this, tracker, assigner
      ensures Valid() && phase == Idle && At() == BuildStep(old(At()).builder, old(assigner.locks), a, settings)
    {
      BeginAssign(a.summaries, a.account);
      if phase.Idle? { return; }
      Fetched(a.fetch(phase.returned), a.block, a.account);
      if phase.Idle? { return; }
      SendHeld(a.offer(phase.ops), a.block, a.account);
    }

    /** A step of the loop that nobody interrupts is one of the interleavings: its pieces one
        after the other. */
    method StepState(a: Answers)
      requires Valid() && phase == Idle && Faithful(a) && a.max == assigner.maxBundleSize
      modifies this, tracker, assigner
      ensures Valid() && phase == Idle && At() == WholeStep(old(At()).builder, old(assigner.locks), a, settings)
    {
      WakeUp(a.wake);
      if phase.Idle? { return; }
      match inner {
        case Building(_, _, _) => HandleBuildingState(a);
        case Pending(_, _) => HandlePendingState(a.block, a.mustWait);
        case Cancelling(_) => HandleCancellingState(a.estimated, a.cancel, a.block);
        case CancelPending(_, _) => HandleCancelPendingState(a.block);
      }
    }
  }

  /** What a cancellation makes of a builder and the locks. */
  lemma CancelPiece(b: Builder, locks: LockMap, estimated: GasFees, answer: CancelAnswer, block: nat, s: Settings,
                    h: Handled)
    requires BuilderOk(b, locks, s) && Enabled(b, Cancel(estimated, answer, block))
    requires h == HandleCancelling(b.machine, estimated, answer, block, s)
    ensures Rest(b, h.machine, h.Locks(locks, b.address)) == Step(b, locks, Cancel(estimated, answer, block), s)
    ensures BuilderOk(b.(machine := h.machine, phase := Idle), h.Locks(locks, b.address), s)
  {
    StepKeeps(b, locks, Cancel(estimated, answer, block), s);
  }

  // ---------------------------------------------------------------- several senders

  /** Senders with their own trackers and addresses on one assigner. */
  ghost predicate Together(senders: seq<BundleSender>, assigner: Assigner, settings: Settings)
    reads set k | 0 <= k < |senders| :: senders[k], set k | 0 <= k < |senders| :: senders[k].tracker,
          set k | 0 <= k < |senders| :: senders[k].assigner
  {
    && (forall k | 0 <= k < |senders| ::
          senders[k].assigner == assigner && senders[k].settings == settings && senders[k].Valid())
    && (forall j, k | 0 <= j < |senders| && 0 <= k < |senders| && j != k ::
          senders[j] != senders[k] && senders[j].tracker != senders[k].tracker
          && senders[j].address != senders[k].address)
  }

  ghost function SystemOf(senders: seq<BundleSender>, assigner: Assigner): System
    reads assigner, set k | 0 <= k < |senders| :: senders[k], set k | 0 <= k < |senders| :: senders[k].tracker,
          set k | 0 <= k < |senders| :: senders[k].assigner
  {
    System(map k: nat | 0 <= k < |senders| :: senders[k].At().builder, assigner.locks)
  }

  /** One piece of one sender's step leaves every other sender in order, and as it was. */
  method PerformOne(senders: seq<BundleSender>, assigner: Assigner, settings: Settings, i: nat, e: Event)
    requires Together(senders, assigner, settings) && i < |senders|
    requires Enabled(senders[i].At().builder, e) && (e.BeginAssign? ==> e.max == assigner.maxBundleSize)
    modifies senders[i], senders[i].tracker, assigner
    ensures Together(senders, assigner, settings)
    ensures senders[i].At() == Step(old(senders[i].At().builder), old(assigner.locks), e, settings)
    ensures forall k | 0 <= k < |senders| && k != i :: senders[k].At().builder == old(senders[k].At().builder)
  {
    ghost var b, locks := senders[i].At().builder, assigner.locks;
    senders[i].Perform(e);
    forall k | 0 <= k < |senders| && k != i
      ensures senders[k].Valid() && senders[k].At().builder == old(senders[k].At().builder)
    {
      OtherStays(b, locks, e, settings, senders[k].At().builder);
    }
  }

  /** So it is one move of the system. */
  method Interleave(senders: seq<BundleSender>, assigner: Assigner, settings: Settings, i: nat, e: Event)
    requires Together(senders, assigner, settings) && i < |senders|
    requires Enabled(senders[i].At().builder, e) && (e.BeginAssign? ==> e.max == assigner.maxBundleSize)
    modifies senders[i], senders[i].tracker, assigner
    ensures Together(senders, assigner, settings)
    ensures CanMove(old(SystemOf(senders, assigner)), Move(i, e))
    ensures SystemOf(senders, assigner) == Next(old(SystemOf(senders, assigner)), Move(i, e), settings)
  {
    ghost var sys := SystemOf(senders, assigner);
    PerformOne(senders, assigner, settings, i, e);
    NextSystem(sys, SystemOf(senders, assigner), i, e, settings);
  }

  lemma NextSystem(sys: System, next: System, i: nat, e: Event, s: Settings)
    requires CanMove(sys, Move(i, e)) && next.builders.Keys == sys.builders.Keys
    requires After(next.builders[i], next.locks) == Step(sys.builders[i], sys.locks, e, s)
    requires forall k | k in sys.builders && k != i :: next.builders[k] == sys.builders[k]
    ensures next == Next(sys, Move(i, e), s)
  {
    assert next.builders == sys.builders[i := next.builders[i]];
  }

  /** Every run of the system is one of the objects, piece by piece. */
  method RunMoves(senders: seq<BundleSender>, assigner: Assigner, settings: Settings, moves: seq<Move>)
    requires Together(senders, assigner, settings) && IsRun(SystemOf(senders, assigner), moves, settings)
    requires forall i | 0 <= i < |moves| && moves[i].event.BeginAssign? :: moves[i].event.max == assigner.maxBundleSize
    modifies assigner, set k | 0 <= k < |senders| :: senders[k], set k | 0 <= k < |senders| :: senders[k].tracker
    ensures Together(senders, assigner, settings)
    ensures SystemOf(senders, assigner) == RunSystem(old(SystemOf(senders, assigner)), moves, settings)
  {
    for i := 0 to |moves|
      invariant Together(senders, assigner, settings) && IsRun(SystemOf(senders, assigner), moves[i..], settings)
      invariant RunSystem(SystemOf(senders, assigner), moves[i..], settings) ==
                RunSystem(old(SystemOf(senders, assigner)), moves, settings)
    {
      assert moves[i..][0] == moves[i] && moves[i..][1..] == moves[i + 1..];
      assert CanMove(SystemOf(senders, assigner), moves[i]);
      Interleave(senders, assigner, settings, moves[i].id, moves[i].event);
    }
  }
}
