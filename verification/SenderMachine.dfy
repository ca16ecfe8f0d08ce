/** The state machine of a bundle sender, as a value: what each handler makes of the
    answers it gets (bundle_sender.rs). */
module Machines {
  import opened Primitives
  import opened Percent
  import opened Locks
  import opened Tracking

  datatype UnderpricedInfo = UnderpricedInfo(sinceBlock: nat, rounds: nat)

  datatype Inner =
    | Building(waitForTrigger: bool, increases: nat, underpriced: Option<UnderpricedInfo>)
    | Pending(until: nat, increases: nat)
    | Cancelling(increases: nat)
    | CancelPending(until: nat, increases: nat)

  const INITIAL := Building(true, 0, None)
  const RESTART := Building(false, 0, None)

  datatype Settings = Settings(percent: nat, maxBlocksToWait: nat, maxCancelIncreases: nat, maxUnderpricedBlocks: nat)

  /** `issued` and `latest` record what the code forgets: how many cancellations the current
      episode has issued, and the senders of the bundle sent last. */
  datatype Machine = Machine(inner: Inner, requiresReset: bool, tracker: Tracker, issued: nat, latest: set<Address>)

  function Restart(m: Machine): Machine {
    m.(inner := RESTART, requiresReset := true)
  }

  // ---------------------------------------------------------------- waiting

  datatype Trigger = TriggerFailed | Triggered(update: Option<AddressUpdate>)
  datatype Wake = Wake(fetched: Option<Account>, trigger: Trigger, receipts: Hash -> Receipt)

  function WaitForTrigger(m: Machine, wake: Wake): (r: (Machine, UpdateResult)) {
    var m1 := if m.requiresReset then m.(tracker := Reset(m.tracker, wake.fetched), requiresReset := false) else m;
    if m.inner.Cancelling? || (m.inner.Building? && !m.inner.waitForTrigger) then (m1, Updated(None))
    else if wake.trigger.TriggerFailed? then (m1, UpdateError)
    else if wake.trigger.update.None? then (m1, Updated(None))
    else
      var (t, result) := ProcessUpdate(m1.tracker, wake.trigger.update.value, wake.receipts);
      (m1.(tracker := t), result)
  }

  // ---------------------------------------------------------------- building

  /** What the proposer makes of the operations and, if it made a bundle, the answer to
      sending it. */
  datatype Offer =
    | ProposerFailed
    | NothingAfterFees
    | NothingAfterSimulation
    | Offered(fees: GasFees, senders: set<Address>, answer: SendAnswer)

  datatype Attempt =
    | Success(senders: set<Address>)
    | NoOperationsInitially
    | NoOperationsAfterSimulation
    | NoOperationsAfterFeeFilter
    | NotSent(error: TxError)
    | AttemptError

  function SendBundle(m: Machine, offer: Offer, percent: nat): (r: (Machine, Attempt)) {
    match offer
    case ProposerFailed => (m, AttemptError)
    case NothingAfterFees => (m, NoOperationsAfterFeeFilter)
    case NothingAfterSimulation => (m, NoOperationsAfterSimulation)
    case Offered(fees, senders, answer) =>
      var (t, result) := SendTransaction(m.tracker, Some(m.tracker.nonce), fees, senders, answer, percent);
      if result.Sent? then (m.(tracker := t, latest := senders), Success(senders))
      else (m.(tracker := t), if result.Failed? && !result.error.Other? then NotSent(result.error) else AttemptError)
  }

  function LocksAfter(locks: LockMap, builder: Address, attempt: Attempt, pending: nat): LockMap {
    match attempt
    case Success(senders) => Confirm(locks, builder, senders)
    case NoOperationsInitially => ReleaseAll(locks, builder)
    case NoOperationsAfterSimulation => ReleaseAll(locks, builder)
    case _ =>
      if attempt == NotSent(NonceTooLow) || pending == 0 then ReleaseAll(locks, builder)
      else Confirm(locks, builder, {})
  }

  function Abandon(t: Tracker): Tracker {
    t.(abandoned := true, attempts := 0)
  }

  function MarkUnderpriced(inner: Inner, block: nat): Inner
    requires inner.Building?
  {
    Building(true, inner.increases + 1,
             Some(if inner.underpriced.Some? then inner.underpriced.value else UnderpricedInfo(block, 1)))
  }

  function NoOperations(m: Machine): Machine
    requires m.inner.Building?
  {
    m.(inner := m.inner.(waitForTrigger := true))
  }

  function AfterFeeFilter(m: Machine, block: nat, s: Settings): Machine
    requires m.inner.Building?
  {
    var u := m.inner.underpriced;
    if u.Some? then
      if SatSub(block, u.value.sinceBlock) >= s.maxUnderpricedBlocks then m.(inner := Cancelling(0), issued := 0)
      else m.(inner := Building(true, 0, Some(u.value.(rounds := u.value.rounds + 1))), tracker := Abandon(m.tracker))
    else if m.inner.increases > 0 then m.(inner := INITIAL, tracker := Abandon(m.tracker))
    else NoOperations(m)
  }

  function HandleBuilding(m: Machine, attempt: Attempt, block: nat, fetched: Option<Account>, s: Settings): Machine
    requires m.inner.Building?
  {
    match attempt
    case Success(_) => m.(inner := Pending(block + s.maxBlocksToWait, m.inner.increases))
    case NoOperationsAfterFeeFilter => AfterFeeFilter(m, block, s)
    case AttemptError => m.(inner := INITIAL, tracker := Reset(m.tracker, fetched))
    case NotSent(error) =>
      (match error
       case NonceTooLow => Restart(m)
       case InsufficientFunds => Restart(m)
       case ConditionNotMet => m.(inner := m.inner.(waitForTrigger := false))
       case ReplacementUnderpriced =>
         m.(inner := MarkUnderpriced(m.inner, block), tracker := m.tracker.(abandoned := false))
       case _ => m.(inner := MarkUnderpriced(m.inner, block)))
    case _ => NoOperations(if m.inner.increases > 0 then m.(tracker := Abandon(m.tracker)) else m)
  }

  // ---------------------------------------------------------------- pending

  function HandlePending(m: Machine, update: Option<TrackerUpdate>, block: nat, mustWait: bool): Machine
    requires m.inner.Pending?
  {
    if update.Some? then
      if update.value.Mined? then m.(inner := Building(mustWait, 0, None)) else Restart(m)
    else if block >= m.inner.until then m.(inner := Building(false, m.inner.increases + 1, None))
    else m
  }

  // ---------------------------------------------------------------- cancelling

  datatype Handled = Handled(machine: Machine, release: bool) {
    function Locks(locks: LockMap, builder: Address): LockMap {
      if release then ReleaseAll(locks, builder) else locks
    }
  }

  function AfterCancel(m: Machine, result: SendResult, block: nat, s: Settings): Handled
    requires m.inner.Cancelling?
  {
    match result
    case Sent(_) => Handled(m.(inner := CancelPending(block + s.maxBlocksToWait, m.inner.increases)), false)
    case SoftCancel => Handled(Restart(m), true)
    case Failed(error) =>
      if error in {TxRejected, Underpriced, ReplacementUnderpriced} && m.inner.increases < s.maxCancelIncreases
      then Handled(m.(inner := Cancelling(m.inner.increases + 1)), false)
      else Handled(Restart(m), false)
  }

  function HandleCancelling(m: Machine, estimated: GasFees, answer: CancelAnswer, block: nat, s: Settings): Handled
    requires m.inner.Cancelling?
  {
    var (t, result) := CancelTransaction(m.tracker, estimated, answer, s.percent);
    AfterCancel(m.(tracker := t, issued := m.issued + 1), result, block, s)
  }

  function HandleCancelPending(m: Machine, update: Option<TrackerUpdate>, block: nat, s: Settings): Handled
    requires m.inner.CancelPending?
  {
    if update.Some? then Handled(Restart(m), false)
    else if block < m.inner.until then Handled(m, false)
    else if m.inner.increases >= s.maxCancelIncreases then Handled(Restart(m), true)
    else Handled(m.(inner := Cancelling(m.inner.increases + 1)), false)
  }

  // ---------------------------------------------------------------- invariants

  /** The counters of a cancellation episode. */
  predicate EpisodeOk(m: Machine, s: Settings) {
    && (m.inner.Cancelling? ==> m.issued == m.inner.increases <= s.maxCancelIncreases)
    && (m.inner.CancelPending? ==> m.issued == m.inner.increases + 1 && m.inner.increases <= s.maxCancelIncreases)
  }

  predicate LatestSent(m: Machine) {
    var sent := SentTxs(m.tracker.txs);
    sent != [] && sent[|sent| - 1].senders == m.latest
  }

  /** What holds of a machine between two steps. */
  predicate AtRest(m: Machine, s: Settings) {
    && TrackerOk(m.tracker, s.percent) && EpisodeOk(m, s)
    && (m.requiresReset ==> m.inner == RESTART)
    && (m.inner.Pending? ==> LatestSent(m))
    && (m.inner.CancelPending? ==> SentTxs(m.tracker.txs) != [])
  }

  /** What holds of it while a handler runs, given what the tracker reported. */
  predicate Awake(m: Machine, update: Option<TrackerUpdate>, s: Settings) {
    && !m.requiresReset
    && (update.None? ==> AtRest(m, s))
    && (update.Some? ==> m.tracker.txs == [] && EpisodeOk(m, s) && TrackerOk(m.tracker, s.percent))
  }

  /** Waking up performs the reset that is due; a reported update has raised the nonce and
      emptied the list, and is never reported while a reset is due. */
  lemma {:induction false} WaitKeeps(m: Machine, wake: Wake, s: Settings)
    requires AtRest(m, s)
    ensures var (m', r) := WaitForTrigger(m, wake);
            && (r.Updated? ==> Awake(m', r.update, s))
            && (r.UpdateError? ==> AtRest(m', s))
            && (r.Updated? && r.update.Some? ==> !m.requiresReset && m'.tracker.nonce > m.tracker.nonce)
            && m'.inner == m.inner && m'.latest == m.latest
  {
    if wake.trigger.Triggered? && wake.trigger.update.Some? {
      UpdateKeeps(m.tracker, wake.trigger.update.value, wake.receipts, s.percent);
    }
  }

  lemma {:induction false} SendBundleKeeps(m: Machine, offer: Offer, s: Settings)
    requires TrackerOk(m.tracker, s.percent) && m.inner.Building?
    ensures var (m', attempt) := SendBundle(m, offer, s.percent);
            && TrackerOk(m'.tracker, s.percent) && m'.inner == m.inner && m'.requiresReset == m.requiresReset
            && (attempt.Success? <==>
                  offer.Offered? && Acceptable(m.tracker, Some(m.tracker.nonce), offer.fees, s.percent)
                  && offer.answer.Accepted?)
            && (attempt.Success? ==> LatestSent(m') && m'.latest == offer.senders == attempt.senders)
            && (!attempt.Success? ==> SentTxs(m'.tracker.txs) == SentTxs(m.tracker.txs) && m'.latest == m.latest)
  {
    if offer.Offered? {
      SendKeeps(m.tracker, Some(m.tracker.nonce), offer.fees, offer.senders, offer.answer, s.percent);
    }
  }

  lemma {:induction false} BuildingKeeps(m: Machine, attempt: Attempt, block: nat, fetched: Option<Account>,
                                         s: Settings)
    requires TrackerOk(m.tracker, s.percent) && m.inner.Building? && !m.requiresReset
    requires attempt.Success? ==> LatestSent(m)
    ensures var m' := HandleBuilding(m, attempt, block, fetched, s);
            && AtRest(m', s) && m'.latest == m.latest
            && (m'.inner.Pending? <==> attempt.Success?) && !m'.inner.CancelPending?
            && (m'.tracker.txs == if attempt.AttemptError? then [] else m.tracker.txs)
            && (m'.requiresReset <==> attempt.NotSent? && attempt.error in {NonceTooLow, InsufficientFunds})
  {
  }

  lemma {:induction false} PendingKeeps(m: Machine, update: Option<TrackerUpdate>, block: nat, mustWait: bool,
                                        s: Settings)
    requires Awake(m, update, s) && m.inner.Pending?
    ensures var m' := HandlePending(m, update, block, mustWait);
            AtRest(m', s) && m'.latest == m.latest && m'.tracker == m.tracker && (update.Some? ==> m'.inner.Building?)
  {
  }

  lemma {:induction false} CancellingKeeps(m: Machine, estimated: GasFees, answer: CancelAnswer, block: nat,
                                           s: Settings)
    requires Awake(m, None, s) && m.inner.Cancelling?
    ensures var h := HandleCancelling(m, estimated, answer, block, s);
            && AtRest(h.machine, s) && h.machine.latest == m.latest && !h.machine.inner.Pending?
            && h.machine.issued <= s.maxCancelIncreases + 1
  {
    CancelKeeps(m.tracker, estimated, answer, s.percent);
  }

  lemma {:induction false} CancelPendingKeeps(m: Machine, update: Option<TrackerUpdate>, block: nat, s: Settings)
    requires Awake(m, update, s) && m.inner.CancelPending?
    ensures var h := HandleCancelPending(m, update, block, s);
            && AtRest(h.machine, s) && h.machine.latest == m.latest && !h.machine.inner.Pending?
            && (h.release ==> h.machine.requiresReset)
  {
  }

  // ---------------------------------------------------------------- cancellation ends

  /** How far a cancellation episode is from its end. */
  function Rank(inner: Inner, s: Settings): (n: nat)
  {
    match inner
    case Cancelling(c) => if c <= s.maxCancelIncreases then 2 * (s.maxCancelIncreases - c) + 2 else 0
    case CancelPending(_, c) => if c <= s.maxCancelIncreases then 2 * (s.maxCancelIncreases - c) + 1 else 0
    case _ => 0
  }

  /** One step of an episode, with the answers it got. */
  datatype Answer = Answer(wake: Wake, estimated: GasFees, cancel: CancelAnswer, block: nat)

  /** A whole step of a machine that is cancelling. */
  function CancelStep(m: Machine, a: Answer, s: Settings): Machine {
    var (m1, r) := WaitForTrigger(m, a.wake);
    if r.UpdateError? then Restart(m1)
    else if m1.inner.Cancelling? then HandleCancelling(m1, a.estimated, a.cancel, a.block, s).machine
    else if m1.inner.CancelPending? then HandleCancelPending(m1, r.update, a.block, s).machine
    else m
  }

  /** A step of an episode ends it, brings the end closer, or waits for a deadline that has
      not passed. */
  lemma {:induction false} CancelStepRank(m: Machine, a: Answer, s: Settings)
    requires AtRest(m, s) && (m.inner.Cancelling? || m.inner.CancelPending?)
    ensures var m' := CancelStep(m, a, s);
            && AtRest(m', s) && m'.issued <= s.maxCancelIncreases + 1
            && (m'.inner.Building? || Rank(m'.inner, s) < Rank(m.inner, s)
                || (m'.inner == m.inner && m.inner.CancelPending? && a.block < m.inner.until))
  {
    WaitKeeps(m, a.wake, s);
    var (m1, r) := WaitForTrigger(m, a.wake);
    if r.Updated? {
      if m1.inner.Cancelling? {
        CancellingKeeps(m1, a.estimated, a.cancel, a.block, s);
      } else {
        CancelPendingKeeps(m1, r.update, a.block, s);
      }
    }
  }

  function Episode(m: Machine, answers: seq<Answer>, s: Settings): (m': Machine)
    decreases |answers|
  {
    if answers == [] || m.inner.Building? then m else Episode(CancelStep(m, answers[0], s), answers[1..], s)
  }

  /** How many steps come before the deadline the machine waits for. */
  function EarlySteps(m: Machine, answers: seq<Answer>, s: Settings): nat
    decreases |answers|
  {
    if answers == [] || m.inner.Building? then 0
    else
      (if m.inner.CancelPending? && answers[0].block < m.inner.until then 1 else 0)
      + EarlySteps(CancelStep(m, answers[0], s), answers[1..], s)
  }

  /** Every episode issues at most one cancellation more than the maximum, and is over after as
      many steps as its rank and one more for each that comes too early. */
  lemma {:induction false} EpisodeEnds(m: Machine, answers: seq<Answer>, s: Settings)
    requires AtRest(m, s) && (m.inner.Cancelling? || m.inner.CancelPending? || m.inner.Building?)
    requires m.issued <= s.maxCancelIncreases + 1
    ensures Episode(m, answers, s).issued <= s.maxCancelIncreases + 1 && AtRest(Episode(m, answers, s), s)
    ensures |answers| >= Rank(m.inner, s) + EarlySteps(m, answers, s) ==> Episode(m, answers, s).inner.Building?
    decreases |answers|
  {
    if answers != [] && !m.inner.Building? {
      CancelStepRank(m, answers[0], s);
      EpisodeEnds(CancelStep(m, answers[0], s), answers[1..], s);
    }
  }
}
