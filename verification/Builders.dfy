/** Any number of bundle senders running at once. A step of a sender is cut at every point
    where it lets the others run; each piece touches the shared locks at most once, so the
    pieces may interleave freely. */
module Builders {
  import opened Primitives
  import opened Percent
  import opened Locks
  import opened Tracking
  import opened Machines

  /** Where a sender is inside its step. */
  datatype Phase =
    | Idle
    | Woken(update: Option<TrackerUpdate>)
    | Fetching(returned: set<Address>)
    | Holding(ops: set<Address>)

  datatype Builder = Builder(address: Address, machine: Machine, phase: Phase)

  datatype Event =
    | WakeUp(wake: Wake)
    | BeginAssign(summaries: Option<seq<Summary>>, max: nat, account: Option<Account>)
    | Fetched(ops: Option<set<Address>>, block: nat, account: Option<Account>)
    | Send(offer: Offer, block: nat, account: Option<Account>)
    | CheckPending(block: nat, mustWait: bool)
    | Cancel(estimated: GasFees, answer: CancelAnswer, block: nat)
    | CheckCancelled(block: nat)

  /** When an event can happen. The pool returns operations that were asked for; that the
      proposer bundles operations it was given is a law of the proposer. */
  predicate Enabled(b: Builder, e: Event) {
    match e
    case WakeUp(_) => b.phase.Idle?
    case BeginAssign(_, _, _) => b.phase.Woken? && b.machine.inner.Building?
    case Fetched(ops, _, _) =>
      b.phase.Fetching? && b.machine.inner.Building? && (ops.Some? ==> ops.value <= b.phase.returned)
    case Send(offer, _, _) =>
      b.phase.Holding? && b.machine.inner.Building? && (offer.Offered? ==> offer.senders <= b.phase.ops)
    case CheckPending(_, _) => b.phase.Woken? && b.machine.inner.Pending?
    case Cancel(_, _, _) => b.phase.Woken? && b.machine.inner.Cancelling?
    case CheckCancelled(_) => b.phase.Woken? && b.machine.inner.CancelPending?
  }

  datatype After = After(builder: Builder, locks: LockMap)

  function Rest(b: Builder, m: Machine, locks: LockMap): After {
    After(b.(machine := m, phase := Idle), locks)
  }

  /** One piece of a step, with its effect on the shared locks. */
  function Step(b: Builder, locks: LockMap, e: Event, s: Settings): (r: After)
    requires Enabled(b, e)
  {
    var m, a := b.machine, b.address;
    match e
    case WakeUp(wake) =>
      var (m', r) := WaitForTrigger(m, wake);
      if r.UpdateError? then Rest(b, Restart(m'), ReleaseAll(locks, a))
      else After(b.(machine := m', phase := Woken(r.update)), if r.update.Some? then ReleaseAll(locks, a) else locks)
    case BeginAssign(summaries, max, account) =>
      if summaries.None? then Rest(b, HandleBuilding(m, AttemptError, 0, account, s), locks)
      else
        var r := Assign(locks, a, summaries.value, [], max);
        After(b.(phase := Fetching(SendersOf(r.returned))), r.locks)
    case Fetched(ops, block, account) =>
      if ops.None? then Rest(b, HandleBuilding(m, AttemptError, block, account, s), locks)
      else if ops.value == {} then
        Rest(b, HandleBuilding(m, NoOperationsInitially, block, account, s), ReleaseAll(locks, a))
      else After(b.(phase := Holding(ops.value)), locks)
    case Send(offer, block, account) =>
      var (m', attempt) := SendBundle(m, offer, s.percent);
      Rest(b, HandleBuilding(m', attempt, block, account, s), LocksAfter(locks, a, attempt, |SentTxs(m'.tracker.txs)|))
    case CheckPending(block, mustWait) =>
      Rest(b, HandlePending(m, b.phase.update, block, mustWait), locks)
    case Cancel(estimated, answer, block) =>
      var h := HandleCancelling(m, estimated, answer, block, s);
      Rest(b, h.machine, h.Locks(locks, a))
    case CheckCancelled(block) =>
      var h := HandleCancelPending(m, b.phase.update, block, s);
      Rest(b, h.machine, h.Locks(locks, a))
  }

  // ---------------------------------------------------------------- one builder and the locks

  predicate ConfirmedTo(senders: set<Address>, locks: LockMap, builder: Address) {
    senders <= HeldIn(locks, Lock(builder, Confirmed))
  }

  /** What holds of a builder and the locks wherever it is in its step. */
  predicate BuilderOk(b: Builder, locks: LockMap, s: Settings) {
    match b.phase
    case Idle => AtRest(b.machine, s) && (b.machine.inner.Pending? ==> ConfirmedTo(b.machine.latest, locks, b.address))
    case Woken(update) =>
      && Awake(b.machine, update, s)
      && (update.Some? ==> HeldBy(locks, b.address) == {} && !b.machine.inner.Cancelling?)
      && (update.None? && b.machine.inner.Pending? ==> ConfirmedTo(b.machine.latest, locks, b.address))
    case Fetching(returned) =>
      && b.machine.inner.Building? && !b.machine.requiresReset
      && TrackerOk(b.machine.tracker, s.percent)
      && returned <= HeldBy(locks, b.address)
    case Holding(ops) =>
      && b.machine.inner.Building? && !b.machine.requiresReset && TrackerOk(b.machine.tracker, s.percent)
      && ops <= HeldBy(locks, b.address) && ops != {}
  }

  lemma {:induction false} BuildingStepKeeps(b: Builder, locks: LockMap, e: Event, s: Settings)
    requires BuilderOk(b, locks, s) && Enabled(b, e) && (e.BeginAssign? || e.Fetched? || e.Send?)
    ensures var r := Step(b, locks, e, s); BuilderOk(r.builder, r.locks, s) && r.builder.address == b.address
  {
    var m := b.machine;
    BuildingKeeps(m, AttemptError, if e.BeginAssign? then 0 else e.block, e.account, s);
    if e.BeginAssign? && e.summaries.Some? {
      AssignExtends(locks, b.address, e.summaries.value, [], e.max);
    } else if e.Fetched? {
      BuildingKeeps(m, NoOperationsInitially, e.block, e.account, s);
    } else if e.Send? {
      SendBundleKeeps(m, e.offer, s);
      var (m', attempt) := SendBundle(m, e.offer, s.percent);
      BuildingKeeps(m', attempt, e.block, e.account, s);
    }
  }

  /** Every piece of a step keeps the builder and the locks in order. */
  lemma {:induction false} StepKeeps(b: Builder, locks: LockMap, e: Event, s: Settings)
    requires BuilderOk(b, locks, s) && Enabled(b, e)
    ensures var r := Step(b, locks, e, s); BuilderOk(r.builder, r.locks, s) && r.builder.address == b.address
  {
    var m := b.machine;
    match e
    case WakeUp(wake) => WaitKeeps(m, wake, s);
    case CheckPending(block, mustWait) => PendingKeeps(m, b.phase.update, block, mustWait, s);
    case Cancel(estimated, answer, block) => CancellingKeeps(m, estimated, answer, block, s);
    case CheckCancelled(block) => CancelPendingKeeps(m, b.phase.update, block, s);
    case _ => BuildingStepKeeps(b, locks, e, s);
  }

  /** The call to the assigner that settles an attempt. */
  lemma SettlingAction(locks: LockMap, builder: Address, attempt: Attempt, pending: nat) returns (a: Action)
    requires attempt.Success? ==> attempt.senders <= HeldBy(locks, builder)
    ensures LocksAfter(locks, builder, attempt, pending) == Act(locks, a) && a.builder == builder && Allowed(locks, a)
  {
    match attempt
    case Success(senders) => a := ConfirmFor(builder, senders);
    case NoOperationsInitially => a := ReleaseFor(builder);
    case NoOperationsAfterSimulation => a := ReleaseFor(builder);
    case _ =>
      a := if attempt == NotSent(NonceTooLow) || pending == 0 then ReleaseFor(builder) else ConfirmFor(builder, {});
  }

  /** Each piece of a step makes at most one call to the assigner, and never one that
      panics: what it confirms is locked to it, and it holds some lock when it confirms. */
  lemma StepActs(b: Builder, locks: LockMap, e: Event, s: Settings) returns (a: Option<Action>)
    requires BuilderOk(b, locks, s) && Enabled(b, e)
    ensures Step(b, locks, e, s).locks == if a.Some? then Act(locks, a.value) else locks
    ensures a.Some? ==> a.value.builder == b.address && Allowed(locks, a.value)
    ensures a.Some? && a.value.ConfirmFor? ==> HeldBy(locks, b.address) != {}
  {
    a := None;
    var release := ReleaseFor(b.address);
    match e
    case WakeUp(wake) =>
      var (m', r) := WaitForTrigger(b.machine, wake);
      if r.UpdateError? || r.update.Some? { a := Some(release); }
    case BeginAssign(summaries, max, account) =>
      if summaries.Some? { a := Some(AssignTo(b.address, summaries.value, max)); }
    case Fetched(ops, block, account) =>
      if ops == Some({}) { a := Some(release); }
    case Send(offer, block, account) =>
      SendBundleKeeps(b.machine, offer, s);
      var (m', attempt) := SendBundle(b.machine, offer, s.percent);
      var settling := SettlingAction(locks, b.address, attempt, |SentTxs(m'.tracker.txs)|);
      a := Some(settling);
    case CheckPending(block, mustWait) =>
    case Cancel(estimated, answer, block) =>
      if HandleCancelling(b.machine, estimated, answer, block, s).release { a := Some(release); }
    case CheckCancelled(block) =>
      if HandleCancelPending(b.machine, b.phase.update, block, s).release { a := Some(release); }
  }

  /** A step leaves every lock of the other builders alone and gives them none. */
  lemma {:induction false} StepLocal(b: Builder, locks: LockMap, e: Event, s: Settings, other: Address)
    requires BuilderOk(b, locks, s) && Enabled(b, e) && other != b.address
    ensures var r := Step(b, locks, e, s);
              HeldBy(r.locks, other) == HeldBy(locks, other)
              && HeldIn(r.locks, Lock(other, Confirmed)) == HeldIn(locks, Lock(other, Confirmed))
  {
    var a := StepActs(b, locks, e, s);
    if a.Some? { OthersUntouched(locks, a.value, other); }
  }

  // ---------------------------------------------------------------- a step without interruption

  /** All answers a step may ask for. */
  datatype Answers = Answers(
    wake: Wake, block: nat, account: Option<Account>, summaries: Option<seq<Summary>>, max: nat,
    fetch: set<Address> -> Option<set<Address>>, offer: set<Address> -> Offer,
    mustWait: bool, estimated: GasFees, cancel: CancelAnswer)

  /** The pool and the proposer keep to what they are given. */
  ghost predicate Faithful(a: Answers) {
    && (forall x | a.fetch(x).Some? :: a.fetch(x).value <= x)
    && (forall x | a.offer(x).Offered? :: a.offer(x).senders <= x)
  }

  ghost function BuildStep(b: Builder, locks: LockMap, a: Answers, s: Settings): After
    requires b.phase.Woken? && b.machine.inner.Building? && Faithful(a)
  {
    var r := Step(b, locks, BeginAssign(a.summaries, a.max, a.account), s);
    if r.builder.phase.Idle? then r
    else
      var f := Step(r.builder, r.locks, Fetched(a.fetch(r.builder.phase.returned), a.block, a.account), s);
      if f.builder.phase.Idle? then f
      else Step(f.builder, f.locks, Send(a.offer(f.builder.phase.ops), a.block, a.account), s)
  }

  ghost function HandleStep(b: Builder, locks: LockMap, a: Answers, s: Settings): After
    requires b.phase.Woken? && Faithful(a)
  {
    match b.machine.inner
    case Building(_, _, _) => BuildStep(b, locks, a, s)
    case Pending(_, _) => Step(b, locks, CheckPending(a.block, a.mustWait), s)
    case Cancelling(_) => Step(b, locks, Cancel(a.estimated, a.cancel, a.block), s)
    case CancelPending(_, _) => Step(b, locks, CheckCancelled(a.block), s)
  }

  ghost function WholeStep(b: Builder, locks: LockMap, a: Answers, s: Settings): After
    requires b.phase.Idle? && Faithful(a)
  {
    var w := Step(b, locks, WakeUp(a.wake), s);
    if w.builder.phase.Idle? then w else HandleStep(w.builder, w.locks, a, s)
  }

  /** While it is cancelling, a builder's steps are those of a cancellation episode. */
  lemma WholeStepCancels(b: Builder, locks: LockMap, a: Answers, s: Settings)
    requires b.phase.Idle? && Faithful(a) && BuilderOk(b, locks, s)
             && (b.machine.inner.Cancelling? || b.machine.inner.CancelPending?)
    ensures WholeStep(b, locks, a, s).builder.machine ==
            CancelStep(b.machine, Answer(a.wake, a.estimated, a.cancel, a.block), s)
  {
    WaitKeeps(b.machine, a.wake, s);
  }

  // ---------------------------------------------------------------- the whole system

  datatype System = System(builders: map<nat, Builder>, locks: LockMap)
  datatype Move = Move(id: nat, event: Event)

  predicate SystemOk(sys: System, s: Settings) {
    && (forall i | i in sys.builders :: BuilderOk(sys.builders[i], sys.locks, s))
    && (forall i, j | i in sys.builders && j in sys.builders && i != j ::
          sys.builders[i].address != sys.builders[j].address)
  }

  predicate CanMove(sys: System, move: Move) {
    move.id in sys.builders && Enabled(sys.builders[move.id], move.event)
  }

  function Next(sys: System, move: Move, s: Settings): System
    requires CanMove(sys, move)
  {
    var r := Step(sys.builders[move.id], sys.locks, move.event, s);
    System(sys.builders[move.id := r.builder], r.locks)
  }

  lemma StaysOk(b: Builder, locks: LockMap, after: LockMap, s: Settings)
    requires BuilderOk(b, locks, s) && HeldBy(after, b.address) == HeldBy(locks, b.address)
    requires HeldIn(after, Lock(b.address, Confirmed)) == HeldIn(locks, Lock(b.address, Confirmed))
    ensures BuilderOk(b, after, s)
  {
  }

  /** A piece of one builder's step keeps the others in order. */
  lemma OtherStays(b: Builder, locks: LockMap, e: Event, s: Settings, other: Builder)
    requires BuilderOk(b, locks, s) && Enabled(b, e) && BuilderOk(other, locks, s) && other.address != b.address
    ensures BuilderOk(other, Step(b, locks, e, s).locks, s)
  {
    StepLocal(b, locks, e, s, other.address);
    StaysOk(other, locks, Step(b, locks, e, s).locks, s);
  }

  lemma NextOk(sys: System, move: Move, s: Settings)
    requires SystemOk(sys, s) && CanMove(sys, move)
    ensures SystemOk(Next(sys, move, s), s)
  {
    var next, b := Next(sys, move, s), sys.builders[move.id];
    StepKeeps(b, sys.locks, move.event, s);
    forall i | i in next.builders ensures BuilderOk(next.builders[i], next.locks, s) {
      if i != move.id {
        OtherStays(b, sys.locks, move.event, s, sys.builders[i]);
      }
    }
  }

  predicate IsRun(sys: System, moves: seq<Move>, s: Settings)
    decreases |moves|
  {
    moves == [] || (CanMove(sys, moves[0]) && IsRun(Next(sys, moves[0], s), moves[1..], s))
  }

  function RunSystem(sys: System, moves: seq<Move>, s: Settings): (r: System)
    requires IsRun(sys, moves, s)
    decreases |moves|
  {
    if moves == [] then sys else RunSystem(Next(sys, moves[0], s), moves[1..], s)
  }

  /** Every run keeps the system in order. */
  lemma {:induction false} RunOk(sys: System, moves: seq<Move>, s: Settings)
    requires SystemOk(sys, s) && IsRun(sys, moves, s)
    ensures SystemOk(RunSystem(sys, moves, s), s)
    decreases |moves|
  {
    if moves != [] {
      NextOk(sys, moves[0], s);
      RunOk(Next(sys, moves[0], s), moves[1..], s);
    }
  }

  /** Builders as they start, one for each leased signer. */
  function Start(addresses: seq<Address>, accounts: seq<Option<Account>>): System
    requires |accounts| == |addresses|
  {
    System(map i: nat | 0 <= i < |addresses| ::
             Builder(addresses[i],
                     Machine(INITIAL, false, Reset(Tracker(0, 0, [], false, 0), accounts[i]), 0, {}),
                     Idle), map[])
  }

  lemma StartOk(addresses: seq<Address>, accounts: seq<Option<Account>>, s: Settings)
    requires |accounts| == |addresses| && Distinct(addresses)
    ensures SystemOk(Start(addresses, accounts), s)
  {
  }

  /** Between two steps, waiting for a bundle. */
  predicate Waits(b: Builder) {
    b.phase.Idle? && b.machine.inner.Pending?
  }

  /** In every interleaving, whenever two builders wait for their bundles, every sender of
      each one's latest bundle is confirmed to it and the two bundles share no sender. */
  lemma {:induction false} PendingBundlesDisjoint(addresses: seq<Address>, accounts: seq<Option<Account>>,
                                                  moves: seq<Move>, s: Settings)
    requires |accounts| == |addresses| && Distinct(addresses) && IsRun(Start(addresses, accounts), moves, s)
    ensures var end := RunSystem(Start(addresses, accounts), moves, s);
            forall i, j | i in end.builders && j in end.builders && i != j
                          && Waits(end.builders[i]) && Waits(end.builders[j]) ::
              && ConfirmedTo(end.builders[i].machine.latest, end.locks, end.builders[i].address)
              && end.builders[i].machine.latest !! end.builders[j].machine.latest
  {
    StartOk(addresses, accounts, s);
    RunOk(Start(addresses, accounts), moves, s);
    var end := RunSystem(Start(addresses, accounts), moves, s);
    forall i | i in end.builders && Waits(end.builders[i])
      ensures ConfirmedTo(end.builders[i].machine.latest, end.locks, end.builders[i].address)
    {
      assert BuilderOk(end.builders[i], end.locks, s);
    }
  }

  /** In every reachable state: a sender waiting for a transaction has sent one and has no
      reset due; a reported update finds the builder without transactions and locks; what is
      about to be confirmed is held; a cancellation stays within its bounds. */
  lemma {:induction false} ReachableStates(addresses: seq<Address>, accounts: seq<Option<Account>>, moves: seq<Move>,
                                           s: Settings, i: nat)
    requires |accounts| == |addresses| && Distinct(addresses) && IsRun(Start(addresses, accounts), moves, s)
    requires i in RunSystem(Start(addresses, accounts), moves, s).builders
    ensures var end := RunSystem(Start(addresses, accounts), moves, s);
            var b := end.builders[i];
            && TrackerOk(b.machine.tracker, s.percent)
            && (b.phase.Idle? && (b.machine.inner.Pending? || b.machine.inner.CancelPending?) ==>
                  !b.machine.requiresReset && SentTxs(b.machine.tracker.txs) != [])
            && (b.phase.Woken? && b.phase.update.Some? ==>
                  b.machine.tracker.txs == [] && HeldBy(end.locks, b.address) == {})
            && (b.phase.Holding? ==> b.phase.ops <= HeldBy(end.locks, b.address) && HeldBy(end.locks, b.address) != {})
            && (b.machine.inner.Cancelling? || b.machine.inner.CancelPending? ==>
                  b.machine.inner.increases <= s.maxCancelIncreases && b.machine.issued <= s.maxCancelIncreases + 1)
  {
    StartOk(addresses, accounts, s);
    RunOk(Start(addresses, accounts), moves, s);
    var end := RunSystem(Start(addresses, accounts), moves, s);
    assert BuilderOk(end.builders[i], end.locks, s);
  }
}
