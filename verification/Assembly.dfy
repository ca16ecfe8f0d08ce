/** The greedy assembly of a proposal from simulated operations (assemble_context and
    process_simulation_violations in bundle_proposer.rs). */
module Assembly {
  import opened Primitives
  import opened Storage
  import opened UserOps
  import opened Proposal
  import opened Rounds
  import opened BundleGas

  // ---------------------------------------------------------------- failed simulations

  /** A violation, by whom it blames. Messages start with a code. */
  datatype Violation =
    | Blames(entity: Entity)
    | RevertedWith(kind: EntityKind, message: string, address: Option<Address>)
    | Reverted(kind: EntityKind, address: Option<Address>)
    | RevertedOperation(reason: string)
    | Unattributed

  /** The entity to invalidate; bad nonces and deployed senders are nobody's fault. */
  function BlamedBy(v: Violation): Option<Entity> {
    match v
    case Blames(entity) => Some(entity)
    case RevertedWith(kind, message, address) =>
      if Code(message, 4) in {"AA10", "AA25"} || address.None? then None else Some(Entity(kind, address.value))
    case Reverted(kind, address) => if address.None? then None else Some(Entity(kind, address.value))
    case _ => None
  }

  predicate AbsolvesPaymaster(v: Violation) {
    v.RevertedOperation? && Code(v.reason, 3) in {"AA1", "AA2"}
  }

  function Code(message: string, length: nat): string {
    if |message| < length then message else message[..length]
  }

  /** The message is long enough to have its code read. */
  predicate Readable(v: Violation) {
    (v.RevertedWith? ==> |v.message| >= 4) && (v.RevertedOperation? ==> |v.reason| >= 3)
  }

  /** Entities the simulation knows nothing about count as staked. */
  function InfoOf(kind: EntityKind, infos: EntityInfos): Option<EntityInfo> {
    match kind
    case Account => Some(infos.sender)
    case Paymaster => infos.paymaster
    case Factory => infos.factory
    case Aggregator => infos.aggregator
  }

  function BlameUpdate(entity: Entity, infos: EntityInfos): EntityUpdate {
    var info := InfoOf(entity.kind, infos);
    Invalidation(entity, info.None? || info.value.isStaked)
  }

  function BlameAll(updates: map<Address, EntityUpdate>, vs: seq<Violation>, infos: EntityInfos)
    : (r: map<Address, EntityUpdate>)
    decreases |vs|
  {
    if vs == [] then updates
    else
      var blamed := BlamedBy(vs[0]);
      BlameAll(if blamed.Some? then updates[blamed.value.address := BlameUpdate(blamed.value, infos)] else updates,
               vs[1..], infos)
  }

  predicate AnyAbsolves(vs: seq<Violation>) {
    exists i | 0 <= i < |vs| :: AbsolvesPaymaster(vs[i])
  }

  function PaymasterOf(infos: EntityInfos): Option<Address> {
    if infos.paymaster.Some? then Some(infos.paymaster.value.entity.address) else None
  }

  function AmendOpt(updates: map<Address, EntityUpdate>, amended: Option<Address>): map<Address, EntityUpdate> {
    if amended.Some? then Amend(updates, amended.value) else updates
  }

  /** A staked factory, or else a staked sender, answers for everything; otherwise each
      blamed entity does. The paymaster is amended at most once. */
  function ProcessViolations(c: Context, op: Op, vs: seq<Violation>, infos: EntityInfos): (r: Context) {
    if IsStaked(infos.factory) || infos.sender.isStaked then
      var guilty := if IsStaked(infos.factory) then infos.factory.value.entity else infos.sender.entity;
      var amended := PaymasterOf(infos);
      c.(rejected := c.rejected + [Rejection(op, amended)],
         updates := AmendOpt(c.updates, amended)[guilty.address := Invalidation(guilty, true)])
    else
      var amended := if AnyAbsolves(vs) then PaymasterOf(infos) else None;
      c.(rejected := c.rejected + [Rejection(op, amended)],
         updates := AmendOpt(BlameAll(c.updates, vs, infos), amended))
  }

  // ---------------------------------------------------------------- one candidate

  datatype Verdict = Valid | OutOfTime | Violates(violations: seq<Violation>, infos: EntityInfos)
  datatype Candidate = Candidate(op: Op, verdict: Verdict)

  /** Reading the code of a message that is too short panics; with a staked factory or sender
      no message is read. */
  predicate Panics(verdict: Verdict) {
    && verdict.Violates? && !IsStaked(verdict.infos.factory) && !verdict.infos.sender.isStaked
    && exists i | 0 <= i < |verdict.violations| :: !Readable(verdict.violations[i])
  }

  datatype Limits = Limits(
    spec: ChainSpec, maxBundleGas: nat, targetBundleGas: nat, maxStorageSlots: nat,
    maxFee: nat, gasPrice: nat, senders: set<Address>)

  /** `skipped` and `leaked` record what the code forgets: operations left for a later
      bundle, and storages that were merged before their operation was skipped. */
  datatype Draft = Draft(
    ctx: Context, balances: map<Address, nat>, blamed: seq<EntityInfo>, passedTarget: bool,
    skipped: seq<Op>, leaked: seq<ExpectedStorage>)

  predicate AccessesOther(op: Op, senders: set<Address>) {
    exists a | a in op.accessed :: a != op.sender && a in senders
  }

  function SlotSet(held: seq<ExpectedStorage>): (r: set<StorageSlot>) {
    if held == [] then {} else held[0].Keys + SlotSet(held[1..])
  }

  predicate CandidateOk(c: Candidate, spec: ChainSpec) {
    && (KeyOf(c.op) == ZERO || KeyOf(c.op) in spec.aggregators)
    && (c.op.paymaster.Some? ==> c.op.infos.paymaster.Some?)
  }

  /** The gas, fee and size limits of a bundle. */
  predicate WithinLimits(gs: seq<Group>, lim: Limits)
    requires Supported(gs, lim.spec)
  {
    && ComputationGasLimit(gs, lim.spec) <= lim.maxBundleGas
    && BundleCost(gs, lim.spec, lim.gasPrice) <= BufferedFee(lim.maxFee)
    && TransactionSize(gs, lim.spec) < lim.spec.maxTransactionSize
  }

  function Skip(d: Draft, op: Op): Draft {
    d.(skipped := d.skipped + [op])
  }

  /** Skips an operation whose storage has been merged already. */
  function SkipLeaking(d: Draft, op: Op): Draft {
    Skip(d, op).(ctx := d.ctx.(held := d.ctx.held + [op.storage]), leaked := d.leaked + [op.storage])
  }

  function Include(d: Draft, op: Op, lim: Limits): Draft
    requires Supported(AddOp(d.ctx.groups, op), lim.spec)
  {
    var gs := AddOp(d.ctx.groups, op);
    d.(ctx := d.ctx.(groups := gs, held := d.ctx.held + [op.storage]),
       balances := if op.paymaster.Some? && op.paymaster.value in d.balances
                      && d.balances[op.paymaster.value] >= op.maxGasCost
                   then d.balances[op.paymaster.value := d.balances[op.paymaster.value] - op.maxGasCost]
                   else d.balances,
       passedTarget := d.passedTarget || ComputationGasLimit(gs, lim.spec) >= lim.targetBundleGas)
  }

  datatype Decision = Drop | Leak | LeakAndBlame | Take

  function Decide(d: Draft, op: Op, lim: Limits): (r: Decision)
    requires Supported(AddOp(d.ctx.groups, op), lim.spec)
  {
    if d.passedTarget || !WithinLimits(AddOp(d.ctx.groups, op), lim) || !Compatible(d.ctx.held, op.storage) then Drop
    else if |SlotSet(d.ctx.held + [op.storage])| > lim.maxStorageSlots || AccessesOther(op, lim.senders) then Leak
    else if op.paymaster.None? then Take
    else if op.paymaster.value !in d.balances then Leak
    else if d.balances[op.paymaster.value] < op.maxGasCost then LeakAndBlame
    else Take
  }

  function Consider(d: Draft, c: Candidate, lim: Limits): (r: Draft)
    requires Supported(d.ctx.groups, lim.spec) && CandidateOk(c, lim.spec)
  {
    AddOpKeys(d.ctx.groups, c.op);
    match c.verdict
    case Violates(vs, infos) => d.(ctx := ProcessViolations(d.ctx, c.op, vs, infos))
    case OutOfTime => d.(ctx := d.ctx.(rejected := d.ctx.rejected + [Rejection(c.op, None)]))
    case Valid =>
      match Decide(d, c.op, lim)
      case Drop => Skip(d, c.op)
      case Leak => SkipLeaking(d, c.op)
      case LeakAndBlame => SkipLeaking(d, c.op).(blamed := d.blamed + [c.op.infos.paymaster.value])
      case Take => Include(d, c.op, lim)
  }

  lemma ConsiderSupported(d: Draft, c: Candidate, lim: Limits)
    requires Supported(d.ctx.groups, lim.spec) && CandidateOk(c, lim.spec)
    ensures Supported(Consider(d, c, lim).ctx.groups, lim.spec)
  {
    AddOpKeys(d.ctx.groups, c.op);
  }

  function Start(balances: map<Address, nat>): Draft {
    Draft(EMPTY, balances, [], false, [], [])
  }

  predicate CandidatesOk(cs: seq<Candidate>, spec: ChainSpec) {
    forall i | 0 <= i < |cs| :: CandidateOk(cs[i], spec)
  }

  /** With nothing to spend, candidates are not looked at. */
  predicate AssemblyPanics(cs: seq<Candidate>, lim: Limits) {
    lim.maxFee > 0 && exists i | 0 <= i < |cs| :: Panics(cs[i].verdict)
  }

  /** The draft after a list of candidates, first to last. */
  function Draw(balances: map<Address, nat>, cs: seq<Candidate>, lim: Limits): (d: Draft)
    requires CandidatesOk(cs, lim.spec)
    ensures Supported(d.ctx.groups, lim.spec)
    decreases |cs|
  {
    if cs == [] then Start(balances)
    else
      var d := Draw(balances, cs[..|cs| - 1], lim);
      ConsiderSupported(d, cs[|cs| - 1], lim);
      Consider(d, cs[|cs| - 1], lim)
  }
}
