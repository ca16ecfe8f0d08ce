/** Making a bundle: limit, simulate, assemble, then ask the entry point and reject until
    it accepts (make_bundle in bundle_proposer.rs). */
module BundleProposer {
  import opened Primitives
  import opened Lists
  import opened Loops
  import opened Storage
  import opened UserOps
  import opened Proposal
  import opened Rejections
  import opened Rounds
  import opened Positions
  import opened BundleGas
  import opened GasFigures
  import opened Assembly
  import opened AssemblyLaws
  import opened Decisions
  import opened ProposalState
  import opened Signing
  import opened Retrying
  import opened Freshness

  // ---------------------------------------------------------------- before simulation

  predicate SupportedOp(op: Op, spec: ChainSpec) {
    op.aggregator.None? || op.aggregator.value in spec.aggregators
  }

  /** The operations kept for simulation: first come, first served. */
  function Limited(ops: seq<Op>, spec: ChainSpec, gasLeft: nat): (r: seq<Op>)
    decreases |ops|
  {
    if ops == [] then []
    else if SupportedOp(ops[0], spec) && ops[0].computationGas <= gasLeft
    then [ops[0]] + Limited(ops[1..], spec, gasLeft - ops[0].computationGas)
    else Limited(ops[1..], spec, gasLeft)
  }

  function Simulated(ops: seq<Op>, world: World): (r: seq<Candidate>) {
    if ops == [] then []
    else
      var verdict := world.simulate(ops[0]);
      (if verdict.Some? then [Candidate(ops[0], verdict.value)] else []) + Simulated(ops[1..], world)
  }

  /** Keeps operations, in order, while their optimistic gas fits; says how much they use. */
  method LimitForSimulation(ops: seq<Op>, spec: ChainSpec, maxGas: nat) returns (kept: seq<Op>, used: nat)
    ensures kept == Limited(ops, spec, maxGas)
    ensures Subseq(kept, ops) && forall i | 0 <= i < |kept| :: SupportedOp(kept[i], spec)
    ensures used == SumGas(kept, false) <= maxGas
    ensures forall op | op in ops && SupportedOp(op, spec) && op !in kept :: op.computationGas > maxGas - used
  {
    LimitedLaws(ops, spec, maxGas);
    var gasLeft: nat := maxGas;
    kept := [];
    for i := 0 to |ops|
      invariant kept + Limited(ops[i..], spec, gasLeft) == Limited(ops, spec, maxGas)
      invariant gasLeft + SumGas(kept, false) == maxGas
    {
      var op := ops[i];
      LimitedStep(ops, i, spec, gasLeft, kept);
      if SupportedOp(op, spec) && op.computationGas <= gasLeft {
        SumGasAppend(kept, op);
        gasLeft := gasLeft - op.computationGas;
        kept := kept + [op];
      }
    }
    used := maxGas - gasLeft;
  }

  lemma LimitedStep(ops: seq<Op>, i: nat, spec: ChainSpec, gasLeft: nat, kept: seq<Op>)
    requires i < |ops|
    ensures kept + Limited(ops[i..], spec, gasLeft) ==
            if SupportedOp(ops[i], spec) && ops[i].computationGas <= gasLeft
            then kept + [ops[i]] + Limited(ops[i + 1..], spec, gasLeft - ops[i].computationGas)
            else kept + Limited(ops[i + 1..], spec, gasLeft)
  {
    assert ops[i..][0] == ops[i] && ops[i..][1..] == ops[i + 1..];
    if SupportedOp(ops[i], spec) && ops[i].computationGas <= gasLeft {
      ConcatAssoc(kept, [ops[i]], Limited(ops[i + 1..], spec, gasLeft - ops[i].computationGas));
    }
  }

  /** What is kept is supported, in order and fits; what is left out and supported does not fit
      in what remains. */
  lemma {:induction false} LimitedLaws(ops: seq<Op>, spec: ChainSpec, gasLeft: nat)
    ensures var kept := Limited(ops, spec, gasLeft);
            && Subseq(kept, ops) && (forall i | 0 <= i < |kept| :: SupportedOp(kept[i], spec))
            && SumGas(kept, false) <= gasLeft
            && (forall op | op in ops && SupportedOp(op, spec) && op !in kept ::
                  op.computationGas > gasLeft - SumGas(kept, false))
    decreases |ops|
  {
    if ops != [] {
      var rest := if SupportedOp(ops[0], spec) && ops[0].computationGas <= gasLeft
                  then gasLeft - ops[0].computationGas else gasLeft;
      LimitedLaws(ops[1..], spec, rest);
      var kept, tail := Limited(ops, spec, gasLeft), Limited(ops[1..], spec, rest);
      assert ops == [ops[0]] + ops[1..];
      SubseqPrepend(tail, [ops[0]], ops[1..]);
      if kept != tail {
        assert kept[1..] == tail;
        SubseqConcat([ops[0]], [ops[0]], tail, ops[1..]);
      }
    }
  }

  /** First come, first served: what comes later does not change what is kept before. */
  lemma {:induction false} LimitedPrefix(ops: seq<Op>, more: seq<Op>, spec: ChainSpec, gasLeft: nat)
    ensures Limited(ops, spec, gasLeft) <= Limited(ops + more, spec, gasLeft)
    decreases |ops|
  {
    if ops != [] {
      var rest := if SupportedOp(ops[0], spec) && ops[0].computationGas <= gasLeft
                  then gasLeft - ops[0].computationGas else gasLeft;
      assert (ops + more)[0] == ops[0] && (ops + more)[1..] == ops[1..] + more;
      LimitedPrefix(ops[1..], more, spec, rest);
    }
  }

  /** The candidates are the operations with a verdict, as often as they were given, each with its
      own verdict. */
  lemma {:induction false} SimulatedExactly(ops: seq<Op>, world: World, op: Op)
    ensures forall i | 0 <= i < |Simulated(ops, world)| ::
              world.simulate(Simulated(ops, world)[i].op) == Some(Simulated(ops, world)[i].verdict)
    ensures Count(CandidateOps(Simulated(ops, world)), op) ==
            if world.simulate(op).Some? then Count(ops, op) else 0
    decreases |ops|
  {
    if ops != [] {
      var tail := Simulated(ops[1..], world);
      SimulatedExactly(ops[1..], world, op);
      if world.simulate(ops[0]).Some? {
        CandidateOpsCons(Candidate(ops[0], world.simulate(ops[0]).value), tail, op);
      } else {
        assert Simulated(ops, world) == tail;
      }
    }
  }

  lemma {:induction false} SumGasAppend(ops: seq<Op>, op: Op)
    ensures SumGas(ops + [op], false) == SumGas(ops, false) + op.computationGas
    decreases |ops|
  {
    if ops == [] {
      assert ops + [op] == [op] && [op][1..] == [];
    } else {
      SumGasAppend(ops[1..], op);
      assert (ops + [op])[1..] == ops[1..] + [op];
    }
  }

  lemma SimulatedNext(ops: seq<Op>, i: nat, cs: seq<Candidate>, world: World)
    requires i < |ops| && Subseq(CandidateOps(cs), ops[..i])
    ensures var verdict := world.simulate(ops[i]);
            var next := if verdict.Some? then cs + [Candidate(ops[i], verdict.value)] else cs;
            && Subseq(CandidateOps(next), ops[..i + 1])
            && next + Simulated(ops[i + 1..], world) == cs + Simulated(ops[i..], world)
  {
    var verdict := world.simulate(ops[i]);
    assert ops[..i + 1] == ops[..i] + [ops[i]] && ops[i..][0] == ops[i] && ops[i..][1..] == ops[i + 1..];
    if verdict.Some? {
      SubseqConcat(CandidateOps(cs), ops[..i], [ops[i]], [ops[i]]);
      assert (cs + [Candidate(ops[i], verdict.value)])[..|cs|] == cs;
      ConcatAssoc(cs, [Candidate(ops[i], verdict.value)], Simulated(ops[i + 1..], world));
    } else {
      SubseqConcat(CandidateOps(cs), ops[..i], [], [ops[i]]);
      assert CandidateOps(cs) + [] == CandidateOps(cs);
    }
  }

  method Simulate(ops: seq<Op>, world: World, spec: ChainSpec) returns (cs: seq<Candidate>)
    requires forall i | 0 <= i < |ops| ::
               SupportedOp(ops[i], spec) && (ops[i].paymaster.Some? ==> ops[i].infos.paymaster.Some?)
    ensures CandidatesOk(cs, spec) && Subseq(CandidateOps(cs), ops) && cs == Simulated(ops, world)
  {
    cs := [];
    for i := 0 to |ops|
      invariant CandidatesOk(cs, spec) && Subseq(CandidateOps(cs), ops[..i])
      invariant cs + Simulated(ops[i..], world) == Simulated(ops, world)
    {
      SimulatedNext(ops, i, cs, world);
      var verdict := world.simulate(ops[i]);
      if verdict.Some? {
        cs := cs + [Candidate(ops[i], verdict.value)];
      }
    }
    assert ops[..|ops|] == ops;
  }

  // ---------------------------------------------------------------- assembly

  /** Panics on the first message that is too short for a code. */
  method ProcessSimulationViolations(ctx: ProposalContext, op: Op, vs: seq<Violation>, infos: EntityInfos)
    returns (ok: bool)
    requires ctx.Valid()
    modifies ctx
    ensures ok <==> !Panics(Violates(vs, infos))
    ensures ok ==> ctx.Value() == ProcessViolations(old(ctx.Value()), op, vs, infos)
    ensures ctx.storage.Valid()
  {
    var isStakedFactory, isStakedSender := IsStaked(infos.factory), infos.sender.isStaked;
    var paymaster := PaymasterOf(infos);
    if isStakedFactory || isStakedSender {
      if paymaster.Some? { ctx.AddPaymasterAmendment(paymaster.value); }
      var guilty := if isStakedFactory then infos.factory.value.entity else infos.sender.entity;
      ctx.updates := ctx.updates[guilty.address := Invalidation(guilty, true)];
      ctx.rejected := ctx.rejected + [Rejection(op, paymaster)];
      return true;
    }
    var amendmentRequired := false;
    for i := 0 to |vs|
      invariant unchanged(ctx`groups) && unchanged(ctx`rejected) && unchanged(ctx.storage)
      invariant forall j | 0 <= j < i :: Readable(vs[j])
      invariant amendmentRequired <==> exists j | 0 <= j < i :: AbsolvesPaymaster(vs[j])
      invariant BlameAll(ctx.updates, vs[i..], infos) == BlameAll(old(ctx.updates), vs, infos)
    {
      if !Readable(vs[i]) { return false; }
      assert vs[i..][0] == vs[i] && vs[i..][1..] == vs[i + 1..];
      var blamed := BlamedBy(vs[i]);
      if blamed.Some? {
        ctx.updates := ctx.updates[blamed.value.address := BlameUpdate(blamed.value, infos)];
      }
      amendmentRequired := amendmentRequired || AbsolvesPaymaster(vs[i]);
    }
    assert amendmentRequired <==> AnyAbsolves(vs);
    if amendmentRequired && paymaster.Some? { ctx.AddPaymasterAmendment(paymaster.value); }
    ctx.rejected := ctx.rejected + [Rejection(op, if amendmentRequired then paymaster else None)];
    return true;
  }

  /** What a decision does to the proposal. */
  predicate Merged(d: Draft, op: Op, decision: Decision, ctx: Context) {
    ctx == d.ctx.(held := if decision.Drop? then d.ctx.held else d.ctx.held + [op.storage],
                  groups := if decision.Take? then AddOp(d.ctx.groups, op) else d.ctx.groups)
  }

  /** A validly simulated operation, in the order of the code's checks: storage is merged
      before the last three of them. */
  method ConsiderValid(ctx: ProposalContext, op: Op, lim: Limits, balances: map<Address, nat>, passedTarget: bool,
                       ghost d: Draft)
    returns (decision: Decision)
    requires ctx.Valid() && ctx.Value() == d.ctx && balances == d.balances && passedTarget == d.passedTarget
    requires Supported(AddOp(ctx.groups, op), lim.spec)
    modifies ctx, ctx.storage
    ensures ctx.storage.Valid() && decision == Decide(d, op, lim)
    ensures Merged(d, op, decision, ctx.Value())
  {
    if passedTarget { return Drop; }
    var candidate := AddOp(ctx.groups, op);
    if ComputationGasLimit(candidate, lim.spec) > lim.maxBundleGas { return Drop; }
    if BundleCost(candidate, lim.spec, lim.gasPrice) > BufferedFee(lim.maxFee) { return Drop; }
    if TransactionSize(candidate, lim.spec) >= lim.spec.maxTransactionSize { return Drop; }
    var merged := ctx.storage.Add(op.storage);
    if !merged { return Drop; }
    SlotSetTracks(ctx.storage.inner, ctx.storage.counts, ctx.storage.held);
    assert |ctx.storage.inner| == |ctx.storage.inner.Keys|;
    if |ctx.storage.inner| > lim.maxStorageSlots { return Leak; }
    if AccessesOther(op, lim.senders) { return Leak; }
    if op.paymaster.Some? {
      if op.paymaster.value !in balances { return Leak; }
      if balances[op.paymaster.value] < op.maxGasCost { return LeakAndBlame; }
    }
    ctx.groups := candidate;
    return Take;
  }

  method ConsiderCandidate(ctx: ProposalContext, c: Candidate, lim: Limits, balances: map<Address, nat>,
                           blamed: seq<EntityInfo>, passedTarget: bool, ghost d: Draft)
    returns (ok: bool, balances': map<Address, nat>, blamed': seq<EntityInfo>, passedTarget': bool)
    requires ctx.Valid() && ctx.Value() == d.ctx && balances == d.balances && blamed == d.blamed
             && passedTarget == d.passedTarget
    requires Supported(ctx.groups, lim.spec) && CandidateOk(c, lim.spec)
    modifies ctx, ctx.storage
    ensures ctx.storage.Valid() && (ok <==> !Panics(c.verdict))
    ensures var d' := Consider(d, c, lim);
            ok ==>
            && ctx.Value() == d'.ctx && balances' == d'.balances
            && blamed' == d'.blamed && passedTarget' == d'.passedTarget
  {
    ok, balances', blamed', passedTarget' := true, balances, blamed, passedTarget;
    var op := c.op;
    match c.verdict {
      case Violates(vs, infos) => ok := ProcessSimulationViolations(ctx, op, vs, infos);
      case OutOfTime => ctx.rejected := ctx.rejected + [Rejection(op, None)];
      case Valid =>
        TakeAffordable(d, op, lim);
        balances', blamed', passedTarget' := ConsiderSimulated(ctx, op, lim, balances, blamed, passedTarget, d);
        BookedIsConsidered(d, op, lim, ctx.Value(), balances', blamed', passedTarget');
    }
  }

  /** What a decision about a validly simulated operation does to the books. */
  predicate Booked(op: Op, decision: Decision, balances: map<Address, nat>, blamed: seq<EntityInfo>,
                   balances': map<Address, nat>, blamed': seq<EntityInfo>) {
    && (decision.Take? && op.paymaster.Some? ==>
          && op.paymaster.value in balances && balances[op.paymaster.value] >= op.maxGasCost
          && balances' == balances[op.paymaster.value := balances[op.paymaster.value] - op.maxGasCost])
    && ((decision.Take? && op.paymaster.Some?) || balances' == balances)
    && (decision.LeakAndBlame? ==> op.infos.paymaster.Some? && blamed' == blamed + [op.infos.paymaster.value])
    && (decision.LeakAndBlame? || blamed' == blamed)
  }

  lemma {:induction false} BookedIsConsidered(d: Draft, op: Op, lim: Limits, ctx: Context, balances: map<Address, nat>,
                                              blamed: seq<EntityInfo>, passedTarget: bool)
    requires Supported(d.ctx.groups, lim.spec) && CandidateOk(Candidate(op, Valid), lim.spec)
    requires Supported(AddOp(d.ctx.groups, op), lim.spec)
    requires Merged(d, op, Decide(d, op, lim), ctx)
             && Booked(op, Decide(d, op, lim), d.balances, d.blamed, balances, blamed)
    requires passedTarget == (d.passedTarget ||
               (Decide(d, op, lim).Take?
                && ComputationGasLimit(AddOp(d.ctx.groups, op), lim.spec) >= lim.targetBundleGas))
    ensures var d' := Consider(d, Candidate(op, Valid), lim);
            ctx == d'.ctx && balances == d'.balances && blamed == d'.blamed && passedTarget == d'.passedTarget
  {
  }

  lemma TakeAffordable(d: Draft, op: Op, lim: Limits)
    requires Supported(d.ctx.groups, lim.spec) && CandidateOk(Candidate(op, Valid), lim.spec)
    ensures Supported(AddOp(d.ctx.groups, op), lim.spec)
    ensures Decide(d, op, lim).Take? && op.paymaster.Some? ==>
              op.paymaster.value in d.balances && d.balances[op.paymaster.value] >= op.maxGasCost
    ensures Decide(d, op, lim).LeakAndBlame? ==> op.infos.paymaster.Some?
  {
    AddOpKeys(d.ctx.groups, op);
  }

  method ConsiderSimulated(ctx: ProposalContext, op: Op, lim: Limits, balances: map<Address, nat>,
                           blamed: seq<EntityInfo>, passedTarget: bool, ghost d: Draft)
    returns (balances': map<Address, nat>, blamed': seq<EntityInfo>, passedTarget': bool)
    requires ctx.Valid() && ctx.Value() == d.ctx && balances == d.balances && blamed == d.blamed
             && passedTarget == d.passedTarget
    requires Supported(ctx.groups, lim.spec) && CandidateOk(Candidate(op, Valid), lim.spec)
    requires Supported(AddOp(ctx.groups, op), lim.spec)
    modifies ctx, ctx.storage
    ensures ctx.storage.Valid() && Merged(d, op, Decide(d, op, lim), ctx.Value())
    ensures Booked(op, Decide(d, op, lim), balances, blamed, balances', blamed')
    ensures passedTarget' == (d.passedTarget ||
              (Decide(d, op, lim).Take?
               && ComputationGasLimit(AddOp(d.ctx.groups, op), lim.spec) >= lim.targetBundleGas))
  {
    TakeAffordable(d, op, lim);
    var reached := ComputationGasLimit(AddOp(ctx.groups, op), lim.spec) >= lim.targetBundleGas;
    var decision := ConsiderValid(ctx, op, lim, balances, passedTarget, d);
    balances', blamed' := Charge(op, balances, blamed, decision);
    passedTarget' := passedTarget || (decision.Take? && reached);
  }

  /** The books after a decision. */
  method Charge(op: Op, balances: map<Address, nat>, blamed: seq<EntityInfo>, decision: Decision)
    returns (balances': map<Address, nat>, blamed': seq<EntityInfo>)
    requires decision.Take? && op.paymaster.Some? ==>
               op.paymaster.value in balances && balances[op.paymaster.value] >= op.maxGasCost
    requires decision.LeakAndBlame? ==> op.infos.paymaster.Some?
    ensures Booked(op, decision, balances, blamed, balances', blamed')
  {
    balances', blamed' := balances, blamed;
    if decision.LeakAndBlame? {
      blamed' := blamed + [op.infos.paymaster.value];
    } else if decision.Take? && op.paymaster.Some? {
      balances' := balances[op.paymaster.value := balances[op.paymaster.value] - op.maxGasCost];
    }
  }

  predicate PanicFree(cs: seq<Candidate>, n: nat)
    requires n <= |cs|
  {
    forall i | 0 <= i < n :: !Panics(cs[i].verdict)
  }

  /** The draft and the variables of the assembly say the same. */
  predicate Mirrors(d: Draft, ctx: Context, balances: map<Address, nat>, blamed: seq<EntityInfo>, passedTarget: bool) {
    ctx == d.ctx && balances == d.balances && blamed == d.blamed && passedTarget == d.passedTarget
  }

  /** The next candidate. */
  method AssembleNext(ctx: ProposalContext, cs: seq<Candidate>, i: nat, lim: Limits, balances: map<Address, nat>,
                      blamed: seq<EntityInfo>, passedTarget: bool, ghost deposits: map<Address, nat>)
    returns (ok: bool, balances': map<Address, nat>, blamed': seq<EntityInfo>, passedTarget': bool)
    requires i < |cs| && CandidatesOk(cs, lim.spec) && ctx.Valid()
    requires Mirrors(Draw(deposits, cs[..i], lim), ctx.Value(), balances, blamed, passedTarget)
    modifies ctx, ctx.storage
    ensures ok <==> !Panics(cs[i].verdict)
    ensures ok ==>
              && ctx.Valid()
              && Mirrors(Draw(deposits, cs[..i + 1], lim), ctx.Value(), balances', blamed', passedTarget')
  {
    ghost var d := Draw(deposits, cs[..i], lim);
    assert cs[..i + 1][..i] == cs[..i];
    ok, balances', blamed', passedTarget' := ConsiderCandidate(ctx, cs[i], lim, balances, blamed, passedTarget, d);
    DrawSound(deposits, cs[..i + 1], lim);
  }

  /** The draft of the assembly, built in place; the bookkeeping fields of the draft are
      the local variables. */
  method AssembleDraft(ctx: ProposalContext, cs: seq<Candidate>, lim: Limits, deposits: map<Address, nat>)
    returns (ok: bool, blamed: seq<EntityInfo>)
    requires ctx.Valid() && ctx.Value() == EMPTY && CandidatesOk(cs, lim.spec)
    modifies ctx, ctx.storage
    ensures ok <==> PanicFree(cs, |cs|)
    ensures ok ==>
              ctx.Valid() && ctx.Value() == Draw(deposits, cs, lim).ctx && blamed == Draw(deposits, cs, lim).blamed
  {
    var balances, passedTarget := deposits, false;
    ok, blamed := true, [];
    for i := 0 to |cs|
      invariant ok && ctx.Valid() && PanicFree(cs, i)
      invariant Mirrors(Draw(deposits, cs[..i], lim), ctx.Value(), balances, blamed, passedTarget)
    {
      ok, balances, blamed, passedTarget :=
        AssembleNext(ctx, cs, i, lim, balances, blamed, passedTarget, deposits);
      if !ok { return; }
      assert PanicFree(cs, i + 1);
    }
    assert cs[..|cs|] == cs;
  }

  /** Assembly, then the paymasters that could not pay, then all signatures. */
  method AssembleContext(cs: seq<Candidate>, lim: Limits, deposits: map<Address, nat>, sign: Signer)
    returns (ok: bool, ctx: ProposalContext)
    requires CandidatesOk(cs, lim.spec)
    ensures fresh(ctx) && fresh(ctx.storage) && (ok <==> !AssemblyPanics(cs, lim))
    ensures ok ==> ctx.Valid() && ctx.Value() == Assembled(cs, lim, deposits, sign) && AllFresh(ctx.groups)
  {
    ok := true;
    ctx := new ProposalContext();
    if lim.maxFee == 0 { return; }
    var blamed;
    ok, blamed := AssembleDraft(ctx, cs, lim, deposits);
    if !ok { return; }
    RejectBlamed(ctx, blamed);
    SignAll(ctx, sign);
  }

  /** Rejects the paymasters that could not pay. */
  method RejectBlamed(ctx: ProposalContext, blamed: seq<EntityInfo>)
    requires ctx.Valid()
    modifies ctx, ctx.storage
    ensures ctx.Valid() && ctx.Value() == RejectEach(old(ctx.Value()), blamed)
  {
    for i := 0 to |blamed|
      invariant ctx.Valid() && ctx.Value() == RejectEach(old(ctx.Value()), blamed[..i])
    {
      assert blamed[..i + 1][..i] == blamed[..i];
      var _ := ctx.RejectEntity(blamed[i].entity, blamed[i].isStaked);
    }
    assert blamed[..|blamed|] == blamed;
  }

  /** Has every aggregated group signed, or rejects it. */
  method SignAll(ctx: ProposalContext, sign: Signer)
    requires ctx.Valid()
    modifies ctx, ctx.storage
    ensures ctx.Valid() && ctx.Value() == SignEach(old(ctx.Value()), sign) && AllFresh(ctx.groups)
  {
    ghost var before := ctx.Value();
    var keys := AllKeys(ctx.groups);
    var asked := ComputeAggregatorSignatures(ctx, keys, sign);
    SignEachFresh(before, sign);
  }

  method AllKeys(gs: seq<Group>) returns (keys: seq<Address>)
    requires WellFormed(gs)
    ensures Distinct(keys) && keys == KeysInOrder(gs)
  {
    keys := [];
    for i := 0 to |gs|
      invariant |keys| == i && forall k | 0 <= k < i :: keys[k] == gs[k].key
    {
      keys := keys + [gs[i].key];
    }
    forall i, j | 0 <= i < j < |keys| ensures keys[i] != keys[j] {
      FindUnique(gs, gs[i].key);
    }
  }

  // ---------------------------------------------------------------- one round

  /** Collects the positions a post-operation revert condemns, group by group. */
  method CollectPostOp(gs: seq<Group>, flagged: set<nat>) returns (positions: seq<nat>)
    ensures positions == PostOpRejections(gs, flagged)
  {
    positions := [];
    var opIndex: nat := 0;
    for k := 0 to |gs|
      invariant opIndex + |Flat(gs[k..])| == |Flat(gs)|
      invariant positions + PostOpPositions(gs[k..], opIndex, flagged) == PostOpPositions(gs, 0, flagged)
    {
      PostOpStep(gs, k, opIndex, flagged);
      var end := opIndex + |gs[k].ops|;
      var found := CollectGroup(gs[k], opIndex, flagged);
      ConcatAssoc(positions, found, PostOpPositions(gs[k + 1..], end, flagged));
      positions := positions + found;
      opIndex := end;
    }
    if positions == [] { positions := Range(0, opIndex); }
  }

  lemma PostOpStep(gs: seq<Group>, k: nat, start: nat, flagged: set<nat>)
    requires k < |gs|
    ensures |Flat(gs[k..])| == |gs[k].ops| + |Flat(gs[k + 1..])|
    ensures PostOpPositions(gs[k..], start, flagged) ==
            GroupPositions(gs[k], start, flagged) + PostOpPositions(gs[k + 1..], start + |gs[k].ops|, flagged)
  {
    assert gs[k..][0] == gs[k] && gs[k..][1..] == gs[k + 1..];
  }

  method CollectGroup(g: Group, start: nat, flagged: set<nat>) returns (found: seq<nat>)
    ensures found == GroupPositions(g, start, flagged)
  {
    var end := start + |g.ops|;
    if g.key == ZERO {
      found := FlaggedOps(start, end, flagged);
    } else {
      found := if start in flagged then Range(start, end) else [];
    }
  }

  method FlaggedOps(lo: nat, hi: nat, flagged: set<nat>) returns (found: seq<nat>)
    requires lo <= hi
    ensures found == FlaggedIn(lo, hi, flagged)
  {
    found := [];
    for i := lo to hi
      invariant found + FlaggedIn(i, hi, flagged) == FlaggedIn(lo, hi, flagged)
    {
      if i in flagged { found := found + [i]; }
    }
  }

  method ProcessPostOpRevert(ctx: ProposalContext, flagged: set<nat>, sign: Signer) returns (ok: bool)
    requires ctx.Valid()
    modifies ctx, ctx.storage
    ensures ctx.Valid() && Rejects(old(ctx.Value()), ctx.Value())
    ensures React(old(ctx.Value()), PostOpRevert(flagged), sign) == if ok then Retry(ctx.Value()) else Failed
  {
    var positions := CollectPostOp(ctx.groups, flagged);
    ok := RejectFromLast(ctx, positions, sign);
  }

  /** Rejecting from the last position has come down to the first `n`. */
  ghost predicate Descending(c0: Context, c: Context, positions: seq<nat>, n: nat, sign: Signer)
    requires n <= |positions|
  {
    Rejects(c0, c) && Descend(c, positions[..n], sign) == Descend(c0, positions, sign)
  }

  lemma DescendStep(c0: Context, c: Context, positions: seq<nat>, n: nat, sign: Signer)
    requires 0 < n <= |positions| && Descending(c0, c, positions, n, sign)
    ensures Descend(c0, positions, sign) ==
            if positions[n - 1] >= |Flat(c.groups)| then Failed
            else Descend(RejectAndSign(c, positions[n - 1], true, sign), positions[..n - 1], sign)
  {
    assert positions[..n][..n - 1] == positions[..n - 1];
  }

  lemma DescendStart(c: Context, positions: seq<nat>, sign: Signer)
    requires Ok(c)
    ensures Descending(c, c, positions, |positions|, sign)
  {
    RejectsRefl(c);
    assert positions[..|positions|] == positions;
  }

  lemma DescendEnd(c0: Context, c: Context, positions: seq<nat>, sign: Signer)
    requires Descending(c0, c, positions, 0, sign)
    ensures Rejects(c0, c) && Descend(c0, positions, sign) == Retry(c)
  {
    assert positions[..0] == [];
  }

  method RejectFromLast(ctx: ProposalContext, positions: seq<nat>, sign: Signer) returns (ok: bool)
    requires ctx.Valid()
    modifies ctx, ctx.storage
    ensures ctx.Valid() && Rejects(old(ctx.Value()), ctx.Value())
    ensures Descend(old(ctx.Value()), positions, sign) == if ok then Retry(ctx.Value()) else Failed
  {
    ghost var c0 := ctx.Value();
    DescendStart(c0, positions, sign);
    var n: nat := |positions|;
    while n > 0
      invariant n <= |positions| && ctx.Valid() && Descending(c0, ctx.Value(), positions, n, sign)
      decreases n
    {
      var found := RejectLast(ctx, positions, n, sign, c0);
      if !found { return false; }
      n := n - 1;
    }
    DescendEnd(c0, ctx.Value(), positions, sign);
    return true;
  }

  method RejectLast(ctx: ProposalContext, positions: seq<nat>, n: nat, sign: Signer, ghost c0: Context)
    returns (found: bool)
    requires ctx.Valid() && 0 < n <= |positions| && Descending(c0, ctx.Value(), positions, n, sign)
    modifies ctx, ctx.storage
    ensures ctx.Valid() && Rejects(c0, ctx.Value())
    ensures found ==> Descending(c0, ctx.Value(), positions, n - 1, sign)
    ensures !found ==> Descend(c0, positions, sign).Failed?
  {
    DescendStep(c0, ctx.Value(), positions, n, sign);
    var op := ctx.GetOpAt(positions[n - 1]);
    if op.None? { return false; }
    RejectOne(ctx, positions[n - 1], true, sign, c0);
    return true;
  }

  /** One more rejection in a series that started from `c0`. */
  method RejectOne(ctx: ProposalContext, i: nat, amendment: bool, sign: Signer, ghost c0: Context)
    requires ctx.Valid() && i < |Flat(ctx.groups)| && Rejects(c0, ctx.Value())
    modifies ctx, ctx.storage
    ensures ctx.Valid() && Rejects(c0, ctx.Value())
            && ctx.Value() == RejectAndSign(old(ctx.Value()), i, amendment, sign)
  {
    ghost var c := ctx.Value();
    RejectIndexAndSign(ctx, i, amendment, sign);
    RejectsTrans(c0, c, ctx.Value());
  }

  method CheckConditionsMet(ctx: ProposalContext, positions: seq<nat>, sign: Signer) returns (ok: bool)
    requires ctx.Valid()
    modifies ctx, ctx.storage
    ensures ctx.Valid() && Rejects(old(ctx.Value()), ctx.Value())
    ensures Ascend(old(ctx.Value()), positions, sign) == if ok then Retry(ctx.Value()) else Failed
  {
    ghost var c0 := ctx.Value();
    RejectsRefl(c0);
    for n := 0 to |positions|
      invariant ctx.Valid() && Rejects(c0, ctx.Value())
      invariant Ascend(ctx.Value(), positions[n..], sign) == Ascend(c0, positions, sign)
    {
      var op := ctx.GetOpAt(positions[n]);
      assert positions[n..][0] == positions[n] && positions[n..][1..] == positions[n + 1..];
      if op.None? { return false; }
      RejectOne(ctx, positions[n], false, sign, c0);
    }
    return true;
  }

  lemma RejectAndSignRecords(c: Context, i: nat, amendment: bool, sign: Signer)
    requires Ok(c) && i < |Flat(c.groups)|
    ensures |RejectAndSign(c, i, amendment, sign).rejected| > |c.rejected|
  {
    RejectIndexKeeps(c, i, amendment);
    ResignKeeps(RejectIndex(c, i, amendment), KeyOf(Flat(c.groups)[i]), sign);
  }

  method ProcessRevertedBundle(ctx: ProposalContext, blamed: Option<seq<Hash>>, sign: Signer)
    requires ctx.Valid()
    modifies ctx, ctx.storage
    ensures ctx.Valid() && ctx.Value() == ProcessRevert(old(ctx.Value()), blamed, sign)
  {
    var removed := false;
    ghost var c0 := ctx.Value();
    RejectsRefl(c0);
    if blamed.Some? {
      var hashes := blamed.value;
      for j := 0 to |hashes|
        invariant ctx.Valid() && Rejects(c0, ctx.Value())
        invariant RejectHashes(ctx.Value(), hashes[j..], sign) == RejectHashes(c0, hashes, sign)
        invariant removed <==> |ctx.rejected| > |c0.rejected|
      {
        assert hashes[j..][0] == hashes[j] && hashes[j..][1..] == hashes[j + 1..];
        var i := ctx.GetOpIndex(hashes[j]);
        if i.Some? {
          RejectAndSignRecords(ctx.Value(), i.value, false, sign);
          RejectOne(ctx, i.value, false, sign, c0);
          removed := true;
        }
      }
    }
    if !removed { ctx.RejectAll(); }
  }

  method ProcessFailedOperation(ctx: ProposalContext, index: nat, message: string, sign: Signer) returns (ok: bool)
    requires ctx.Valid()
    modifies ctx, ctx.storage
    ensures ctx.Valid()
    ensures ProcessFailedOp(old(ctx.Value()), index, message, sign) == if ok then Retry(ctx.Value()) else Failed
    ensures !ok ==> ctx.Value() == old(ctx.Value())
  {
    var found := ctx.GetOpAt(index);
    if found.None? || |message| < 4 { return false; }
    var op, code := found.value, message[..4];
    if code in {"AA13", "AA14", "AA15"} {
      if op.factory.None? { return false; }
      var _ := ctx.RejectEntity(Entity(Factory, op.factory.value), IsStaked(op.infos.factory));
    } else if code in {"AA30", "AA31", "AA33", "AA34"} {
      if op.paymaster.None? { return false; }
      var _ := ctx.RejectEntity(Entity(Paymaster, op.paymaster.value), IsStaked(op.infos.paymaster));
    } else {
      RejectIndexAndSign(ctx, index, true, sign);
    }
    return true;
  }

  datatype Estimate = Accepted(gas: nat) | Retried | Erred

  /** One round of the retry loop. */
  method EstimateGasRejectingFailedOps(ctx: ProposalContext, spec: ChainSpec, isV06: bool, world: World)
    returns (r: Estimate)
    requires ctx.Valid() && ctx.groups != [] && Supported(ctx.groups, spec)
    modifies ctx, ctx.storage
    ensures ctx.Valid() && Supported(ctx.groups, spec)
    ensures Retries(old(ctx.Value()), spec, isV06, world) ==
            match r
            case Accepted(gas) => Done(ctx.Value(), gas)
            case Retried =>
              if BlamesAbsent(old(ctx.Value()), world) then Stalled else Retries(ctx.Value(), spec, isV06, world)
            case Erred => GaveUp
    ensures r.Retried? ==> (|Flat(ctx.groups)| < |Flat(old(ctx.groups))| <==> !BlamesAbsent(old(ctx.Value()), world))
    ensures Turn(old(ctx.Value()), spec, isV06, world) == if r.Retried? then Some(ctx.Value()) else None
  {
    ghost var c0 := ctx.Value();
    var gas := GasEstimate(ctx.groups, spec);
    if gas > U64_MAX { return Erred; }
    if !isV06 && |Flat(ctx.groups)| == 1 { return Accepted(gas); }
    var answer := world.handleOps(ctx.groups);
    if answer.Success? { return Accepted(gas); }
    var ok := ReactTo(ctx, answer, world.sign);
    LimitsShrink(ctx.groups, c0.groups, spec, true);
    if !ok { return Erred; }
    RoundKeeps(c0, spec, world);
    return Retried;
  }

  method ReactTo(ctx: ProposalContext, answer: Answer, sign: Signer) returns (ok: bool)
    requires ctx.Valid() && ctx.groups != [] && !answer.Success?
    modifies ctx, ctx.storage
    ensures ctx.Valid() && Rejects(old(ctx.Value()), ctx.Value())
    ensures React(old(ctx.Value()), answer, sign) == if ok then Retry(ctx.Value()) else Failed
  {
    ghost var c0 := ctx.Value();
    RejectsRefl(c0);
    ok := true;
    match answer {
      case FailedOp(index, message) => ok := ProcessFailedOperation(ctx, index, message, sign);
      case SignatureValidationFailed(aggregator) => var _ := ctx.RejectEntity(Entity(Aggregator, aggregator), true);
      case PostOpRevert(flagged) => ok := ProcessPostOpRevert(ctx, flagged, sign);
      case Revert(blamed) => ProcessRevertedBundle(ctx, blamed, sign);
      case CallError => ok := false;
    }
    if ok { RoundShrinks(c0, answer, sign); }
  }

  // ---------------------------------------------------------------- the whole proposal

  /** The loop has made that many rounds and has something left to ask about. */
  ghost predicate StillGoing(c: Context, rounds: nat, spec: ChainSpec, isV06: bool, world: World) {
    var at := Iterate(c, rounds, Turns(spec, isV06, world));
    at.Some? && at.value.groups != []
  }

  datatype Settlement = Settled(estimate: Estimate) | Ongoing

  /** What an estimate at the end of the rounds says. */
  function Told(c: Context, estimate: Estimate): Conclusion {
    match estimate
    case Accepted(gas) => Done(c, gas)
    case Retried => Emptied(c)
    case Erred => GaveUp
  }

  /** Checks the conditions once more if told that some failed before. */
  method FinishRounds(ctx: ProposalContext, estimate: Estimate, notified: bool, world: World) returns (r: Estimate)
    requires ctx.Valid() && estimate.Accepted?
    modifies ctx, ctx.storage
    ensures ctx.Valid()
    ensures Told(ctx.Value(), r) ==
            if notified then CheckAgain(old(ctx.Value()), estimate.gas, world) else Told(old(ctx.Value()), estimate)
  {
    if notified {
      var ok := CheckConditionsMet(ctx, world.unmet(Flat(ctx.groups)), world.sign);
      if !ok { return Erred; }
      if ctx.groups == [] { return Retried; }
    }
    return estimate;
  }

  /** Where so many rounds from a proposal lead. */
  ghost predicate After(c0: Context, k: nat, c: Context, spec: ChainSpec, isV06: bool, world: World) {
    Iterate(c0, k, Turns(spec, isV06, world)) == Some(c)
  }

  /** What there is after at most so many rounds. */
  ghost predicate Repeated(c0: Context, rounds: nat, c: Context, r: Settlement, spec: ChainSpec, isV06: bool,
                           world: World)
    requires Ok(c0) && Supported(c0.groups, spec)
  {
    && (r.Ongoing? <==> StillGoing(c0, rounds, spec, isV06, world))
    && (r.Ongoing? ==> After(c0, rounds, c, spec, isV06, world))
    && (r.Settled? ==> Retries(c0, spec, isV06, world) == Told(c, r.estimate))
  }

  lemma StillAsking(c0: Context, rounds: nat, c: Context, spec: ChainSpec, isV06: bool, world: World)
    requires Ok(c0) && Supported(c0.groups, spec) && After(c0, rounds, c, spec, isV06, world) && c.groups != []
    ensures Repeated(c0, rounds, c, Ongoing, spec, isV06, world)
  {
  }

  lemma LeftLoop(c0: Context, k: nat, rounds: nat, c: Context, estimate: Estimate, spec: ChainSpec, isV06: bool,
                 world: World)
    requires Ok(c0) && Supported(c0.groups, spec) && k <= rounds
    requires Iterate(c0, k, Turns(spec, isV06, world)).None? && Retries(c0, spec, isV06, world) == Told(c, estimate)
    ensures Repeated(c0, rounds, c, Settled(estimate), spec, isV06, world)
  {
    IterateStops(c0, k, rounds, Turns(spec, isV06, world));
  }

  lemma NothingToAsk(c0: Context, k: nat, rounds: nat, c: Context, spec: ChainSpec, isV06: bool, world: World)
    requires Ok(c0) && Supported(c0.groups, spec) && k <= rounds
    requires After(c0, k, c, spec, isV06, world) && c.groups == []
    ensures Repeated(c0, rounds, c, Settled(Retried), spec, isV06, world)
  {
    RetriesAfter(c0, k, spec, isV06, world);
    NotGoing(c0, k, rounds, c, spec, isV06, world);
  }

  lemma NotGoing(c0: Context, k: nat, rounds: nat, c: Context, spec: ChainSpec, isV06: bool, world: World)
    requires k <= rounds && After(c0, k, c, spec, isV06, world) && c.groups == []
    ensures !StillGoing(c0, rounds, spec, isV06, world)
  {
    if k < rounds {
      NoTurn(c, spec, isV06, world);
      IterateEnds(c0, k, rounds, Turns(spec, isV06, world));
    }
  }

  lemma NoTurn(c: Context, spec: ChainSpec, isV06: bool, world: World)
    requires c.groups == []
    ensures Turns(spec, isV06, world)(c).None?
  {
  }

  /** Another round, after some that started from `c0`. */
  method NextRound(ctx: ProposalContext, spec: ChainSpec, isV06: bool, world: World, ghost c0: Context, ghost k: nat,
                   ghost rounds: nat)
    returns (r: Estimate)
    requires ctx.Valid() && ctx.groups != [] && Supported(ctx.groups, spec) && Ok(c0) && Supported(c0.groups, spec)
    requires After(c0, k, ctx.Value(), spec, isV06, world) && k < rounds
    modifies ctx, ctx.storage
    ensures ctx.Valid() && Supported(ctx.groups, spec)
    ensures r.Retried? ==> After(c0, k + 1, ctx.Value(), spec, isV06, world)
    ensures !r.Retried? ==> Repeated(c0, rounds, ctx.Value(), Settled(r), spec, isV06, world)
  {
    IterateLast(c0, k, Turns(spec, isV06, world));
    RetriesAfter(c0, k, spec, isV06, world);
    r := EstimateGasRejectingFailedOps(ctx, spec, isV06, world);
    if !r.Retried? { LeftLoop(c0, k + 1, rounds, ctx.Value(), r, spec, isV06, world); }
  }

  /** Asks and rejects until the entry point accepts, nothing is left or a call fails. The
      program sets no bound to the rounds; the model makes any given number of them and says
      what there is by then. */
  method RepeatRounds(ctx: ProposalContext, spec: ChainSpec, isV06: bool, world: World, rounds: nat)
    returns (r: Settlement)
    requires ctx.Valid() && Supported(ctx.groups, spec)
    modifies ctx, ctx.storage
    ensures ctx.Valid() && Repeated(old(ctx.Value()), rounds, ctx.Value(), r, spec, isV06, world)
  {
    ghost var c0 := ctx.Value();
    var k := 0;
    while ctx.groups != [] && k < rounds
      invariant k <= rounds && ctx.Valid() && Supported(ctx.groups, spec)
      invariant After(c0, k, ctx.Value(), spec, isV06, world)
      decreases rounds - k
    {
      var estimate := NextRound(ctx, spec, isV06, world, c0, k, rounds);
      if !estimate.Retried? { return Settled(estimate); }
      k := k + 1;
    }
    if ctx.groups != [] {
      StillAsking(c0, rounds, ctx.Value(), spec, isV06, world);
      return Ongoing;
    }
    NothingToAsk(c0, k, rounds, ctx.Value(), spec, isV06, world);
    return Settled(Retried);
  }

  method Settle(ctx: ProposalContext, spec: ChainSpec, isV06: bool, notified: bool, world: World, rounds: nat)
    returns (r: Settlement)
    requires ctx.Valid() && Supported(ctx.groups, spec)
    modifies ctx, ctx.storage
    ensures ctx.Valid()
    ensures r.Ongoing? <==> StillGoing(old(ctx.Value()), rounds, spec, isV06, world)
    ensures r.Ongoing? ==> Iterate(old(ctx.Value()), rounds, Turns(spec, isV06, world)) == Some(ctx.Value())
    ensures r.Settled? ==> Conclude(old(ctx.Value()), spec, isV06, notified, world) == Told(ctx.Value(), r.estimate)
  {
    r := RepeatRounds(ctx, spec, isV06, world, rounds);
    if r.Settled? && r.estimate.Accepted? {
      var estimate := FinishRounds(ctx, r.estimate, notified, world);
      return Settled(estimate);
    }
  }

  datatype Bundle = Bundle(
    groups: seq<Group>, gasEstimate: nat, storage: ExpectedStorage, rejected: seq<Rejection>,
    updates: map<Address, EntityUpdate>)

  /** A panic is an error here; `Unfinished` is no result of the program, but where it is after
      the rounds it was given. */
  datatype ProposerResult = Made(bundle: Bundle) | NoOperationsAfterFeeFilter | ProposerError | Unfinished

  predicate StorageCovers(ops: seq<Op>, all: ExpectedStorage) {
    forall i | 0 <= i < |ops| :: Agreed(ops[i].storage, all)
  }

  /** What is promised of a bundle, whatever simulation, the entry point, the aggregators
      and the chain's storage answered. */
  ghost predicate Sendable(b: Bundle, lim: Limits, deposits: map<Address, nat>) {
    && WellFormed(b.groups)
    && (b.groups != [] ==>
          && Supported(b.groups, lim.spec) && WithinLimits(b.groups, lim)
          && CoversGas(b.gasEstimate, b.groups, lim.spec) && GasEstimate(b.groups, lim.spec) <= b.gasEstimate <= U64_MAX
          && b.gasEstimate * lim.gasPrice <= lim.maxFee)
    && SlotsBounded(Flat(b.groups), lim)
    && (forall p | p in deposits :: Spent(Flat(b.groups), p) <= deposits[p])
    && (forall op | op in Flat(b.groups) && op.paymaster.Some? :: op.paymaster.value in deposits)
    && Isolated(Flat(b.groups), lim.senders)
    && StorageCovers(Flat(b.groups), b.storage)
    && Accounts(b.updates, b.rejected)
  }

  function SenderSet(cs: seq<Candidate>): set<Address> {
    set i | 0 <= i < |cs| :: cs[i].op.sender
  }

  lemma StorageCoversAll(c: Context, all: ExpectedStorage)
    requires Ok(c) && Indexes(all, c.held)
    ensures StorageCovers(Flat(c.groups), all)
  {
    OwnAgreed(c, all);
    forall i | 0 <= i < |Flat(c.groups)| ensures Agreed(Flat(c.groups)[i].storage, all) {
      RemoveAtStorages(Flat(c.groups), i);
    }
  }

  /** What is left of a sound draft can be sent. */
  lemma Promised(d: Draft, c: Context, b: Bundle, accepted: seq<Group>,
                                    cs: seq<Candidate>, deposits: map<Address, nat>, lim: Limits)
    requires Sound(d, cs, deposits, lim) && Rejects(d.ctx, c)
    requires b.groups == c.groups && b.rejected == c.rejected && b.updates == c.updates
    requires SlotsBounded(Flat(c.groups), lim)
    requires c.groups != [] ==>
               Indexes(b.storage, c.held) && GasOf(b.gasEstimate, c.groups, accepted, d.ctx.groups, lim.spec)
    ensures Sendable(b, lim, deposits) && Conserved(b, d.skipped, cs)
  {
    ShrunkDraft(d, c, cs, deposits, lim);
    if c.groups != [] {
      assert d.ctx.groups != [];
      EstimateShrinks(c.groups, accepted, lim.spec);
      EstimateCovers(c.groups, lim.spec, b.gasEstimate);
      EstimateWithinFee(accepted, d.ctx.groups, lim.spec, lim.gasPrice, lim.maxFee);
      StorageCoversAll(c, b.storage);
    }
    forall op
      ensures Count(Flat(b.groups), op) + Count(RejectedOps(b.rejected), op) + Count(d.skipped, op) ==
              Count(CandidateOps(cs), op)
    {
      assert Tally(c, op) + Count(d.skipped, op) == Count(CandidateOps(cs), op);
    }
  }

  method GatherCandidates(ops: seq<Op>, spec: ChainSpec, maxGas: nat, world: World) returns (cs: seq<Candidate>)
    requires forall i | 0 <= i < |ops| && ops[i].paymaster.Some? :: ops[i].infos.paymaster.Some?
    ensures CandidatesOk(cs, spec) && Subseq(CandidateOps(cs), ops)
            && cs == Simulated(Limited(ops, spec, maxGas), world)
  {
    var kept, _ := LimitForSimulation(ops, spec, maxGas);
    forall i | 0 <= i < |kept| ensures kept[i] in ops { SubseqMember(kept, ops, kept[i]); }
    cs := Simulate(kept, world, spec);
    SubseqTrans(CandidateOps(cs), kept, ops);
  }

  /** The result is that conclusion of the rounds. */
  predicate Concludes(r: ProposerResult, end: Conclusion) {
    match end
    case Done(c, gas) =>
      && r.Made? && r.bundle == Bundle(c.groups, gas, r.bundle.storage, c.rejected, c.updates)
      && Indexes(r.bundle.storage, c.held)
    case Emptied(c) => r == Made(Bundle([], 0, map[], c.rejected, c.updates))
    case GaveUp => r == ProposerError
    case Stalled => false
  }

  /** The result is what the answers from outside make it. */
  ghost predicate Reflects(r: ProposerResult, cs: seq<Candidate>, lim: Limits, deposits: map<Address, nat>,
                           isV06: bool, notified: bool, world: World, rounds: nat)
    requires CandidatesOk(cs, lim.spec) && AssembledOk(cs, lim, deposits, world.sign)
  {
    var start := Assembled(cs, lim, deposits, world.sign);
    if AssemblyPanics(cs, lim) then r == ProposerError
    else if StillGoing(start, rounds, lim.spec, isV06, world) then r == Unfinished
    else Concludes(r, Conclude(start, lim.spec, isV06, notified, world))
  }

  method RunRounds(cs: seq<Candidate>, lim: Limits, deposits: map<Address, nat>, isV06: bool, notified: bool,
                   world: World, rounds: nat)
    returns (r: ProposerResult)
    requires CandidatesOk(cs, lim.spec) && AssembledOk(cs, lim, deposits, world.sign)
    ensures Reflects(r, cs, lim, deposits, isV06, notified, world, rounds)
  {
    var ok, ctx := AssembleContext(cs, lim, deposits, world.sign);
    if !ok { return ProposerError; }
    var outcome := Settle(ctx, lim.spec, isV06, notified, world, rounds);
    if outcome.Ongoing? { return Unfinished; }
    ghost var accepted := Concluded(Assembled(cs, lim, deposits, world.sign), lim.spec, isV06, notified, world);
    match outcome.estimate {
      case Erred => r := ProposerError;
      case Retried => r := Made(Bundle([], 0, map[], ctx.rejected, ctx.updates));
      case Accepted(gas) =>
        TracksIndexes(ctx.storage.inner, ctx.storage.counts, ctx.storage.held);
        r := Made(Bundle(ctx.groups, gas, ctx.storage.inner, ctx.rejected, ctx.updates));
    }
  }

  method Propose(cs: seq<Candidate>, lim: Limits, deposits: map<Address, nat>, isV06: bool, notified: bool,
                 world: World, rounds: nat)
    returns (r: ProposerResult)
    requires CandidatesOk(cs, lim.spec)
    ensures AssembledOk(cs, lim, deposits, world.sign)
    ensures Reflects(r, cs, lim, deposits, isV06, notified, world, rounds)
    ensures r.Made? ==> Sendable(r.bundle, lim, deposits) && Conserved(r.bundle, DraftOf(cs, lim, deposits).skipped, cs)
    ensures r.Made? ==> StorageExact(r.bundle, cs, lim, deposits)
    ensures r.Made? ==> SignedExactly(r.bundle, Assembled(cs, lim, deposits, world.sign), lim.spec, isV06, world)
  {
    AssembledInOrder(cs, lim, deposits, world.sign);
    r := RunRounds(cs, lim, deposits, isV06, notified, world, rounds);
    if r.Made? {
      Finished(cs, lim, deposits, isV06, notified, world, r);
      FinishedSignatures(cs, lim, deposits, isV06, notified, world, r);
    }
  }

  lemma FinishedSignatures(cs: seq<Candidate>, lim: Limits, deposits: map<Address, nat>, isV06: bool, notified: bool,
                                              world: World, r: ProposerResult)
    requires CandidatesOk(cs, lim.spec) && AssembledOk(cs, lim, deposits, world.sign) && r.Made?
    requires Concludes(r, Conclude(Assembled(cs, lim, deposits, world.sign), lim.spec, isV06, notified, world))
    ensures SignedExactly(r.bundle, Assembled(cs, lim, deposits, world.sign), lim.spec, isV06, world)
  {
    var start := Assembled(cs, lim, deposits, world.sign);
    AssembledFresh(cs, lim, deposits, world.sign);
    if Conclude(start, lim.spec, isV06, notified, world).Done? {
      BundleFreshness(start, lim.spec, isV06, notified, world);
    }
  }

  lemma AssembledInOrder(cs: seq<Candidate>, lim: Limits, deposits: map<Address, nat>, sign: Signer)
    requires CandidatesOk(cs, lim.spec)
    ensures AssembledOk(cs, lim, deposits, sign)
  {
    DraftOfSound(cs, lim, deposits);
    AssembledRejects(cs, lim, deposits, sign);
    LimitsShrink(Assembled(cs, lim, deposits, sign).groups, DraftOf(cs, lim, deposits).ctx.groups, lim.spec, true);
  }

  lemma DraftSlots(cs: seq<Candidate>, lim: Limits, deposits: map<Address, nat>, c: Context)
    requires CandidatesOk(cs, lim.spec) && Rejects(DraftOf(cs, lim, deposits).ctx, c)
    ensures SlotsBounded(Flat(c.groups), lim)
  {
    if lim.maxFee == 0 {
      assert c.groups == [] && SlotSet(Storages(Flat(c.groups))) == {};
    } else {
      SlotsOfBundle(deposits, cs, lim, c);
    }
  }

  /** Whatever the rounds come to keeps every promise. */
  lemma Finished(cs: seq<Candidate>, lim: Limits, deposits: map<Address, nat>, isV06: bool, notified: bool,
                                    world: World, r: ProposerResult)
    requires CandidatesOk(cs, lim.spec) && AssembledOk(cs, lim, deposits, world.sign) && r.Made?
    requires Concludes(r, Conclude(Assembled(cs, lim, deposits, world.sign), lim.spec, isV06, notified, world))
    ensures Sendable(r.bundle, lim, deposits) && Conserved(r.bundle, DraftOf(cs, lim, deposits).skipped, cs)
    ensures StorageExact(r.bundle, cs, lim, deposits)
  {
    var c := Conclude(Assembled(cs, lim, deposits, world.sign), lim.spec, isV06, notified, world).ctx;
    var d, start := DraftOf(cs, lim, deposits), Assembled(cs, lim, deposits, world.sign);
    DraftOfSound(cs, lim, deposits);
    AssembledRejects(cs, lim, deposits, world.sign);
    var accepted := Concluded(start, lim.spec, isV06, notified, world);
    RejectsTrans(d.ctx, start, c);
    if c.groups != [] {
      ShrinksTrans(accepted, start.groups, d.ctx.groups);
      StorageOfBundle(deposits, cs, lim, c, r.bundle.storage);
    }
    DraftSlots(cs, lim, deposits, c);
    Promised(d, c, r.bundle, accepted, cs, deposits, lim);
  }

  ghost predicate AssembledOk(cs: seq<Candidate>, lim: Limits, deposits: map<Address, nat>, sign: Signer)
    requires CandidatesOk(cs, lim.spec)
  {
    Ok(Assembled(cs, lim, deposits, sign)) && Supported(Assembled(cs, lim, deposits, sign).groups, lim.spec)
  }

  /** A bundle expects the storage of its own operations, and no other, if and only if what
      leaked from the assembly is covered by them. */
  predicate StorageExact(b: Bundle, cs: seq<Candidate>, lim: Limits, deposits: map<Address, nat>)
    requires CandidatesOk(cs, lim.spec)
  {
    b.groups != [] ==>
      (Indexes(b.storage, Storages(Flat(b.groups))) <==> LeaksCovered(deposits, cs, lim, Flat(b.groups)))
  }

  /** All signatures of the bundle are over its operations if and only if no aggregated group
      lost operations last to a rejected entity. */
  ghost predicate SignedExactly(b: Bundle, start: Context, spec: ChainSpec, isV06: bool, world: World)
    requires Ok(start) && Supported(start.groups, spec)
  {
    b.groups != [] ==>
      && Retries(start, spec, isV06, world).Done?
      && (AllFresh(b.groups) <==>
          forall k | 0 <= k < |b.groups| && b.groups[k].key != ZERO ::
              LastSigned(b.groups, b.groups[k].key, start, spec, isV06, world))
  }

  /** Every candidate is bundled, rejected or skipped, and only once. */
  ghost predicate Conserved(b: Bundle, skipped: seq<Op>, cs: seq<Candidate>) {
    forall op ::
      Count(Flat(b.groups), op) + Count(RejectedOps(b.rejected), op) + Count(skipped, op) ==
      Count(CandidateOps(cs), op)
  }

  /** The bundle is never larger than what was offered. */
  lemma AssembledSize(cs: seq<Candidate>, lim: Limits, deposits: map<Address, nat>, sign: Signer, ops: seq<Op>)
    requires CandidatesOk(cs, lim.spec) && Subseq(CandidateOps(cs), ops)
    ensures |Flat(Assembled(cs, lim, deposits, sign).groups)| <= |ops|
  {
    DraftSize(cs, lim, deposits);
    AssembledRejects(cs, lim, deposits, sign);
    RejectsSize(DraftOf(cs, lim, deposits).ctx, Assembled(cs, lim, deposits, sign));
    SubseqLength(CandidateOps(cs), ops);
    CandidateOpsLength(cs);
  }

  lemma RejectsSize(c: Context, c': Context)
    requires Rejects(c, c')
    ensures |Flat(c'.groups)| <= |Flat(c.groups)|
  {
    ShrinksFlat(c'.groups, c.groups);
    SubseqLength(Flat(c'.groups), Flat(c.groups));
  }

  lemma DraftSize(cs: seq<Candidate>, lim: Limits, deposits: map<Address, nat>)
    requires CandidatesOk(cs, lim.spec)
    ensures |Flat(DraftOf(cs, lim, deposits).ctx.groups)| <= |cs|
  {
    DrawSize(deposits, cs, lim);
  }

  /** Given at least as many rounds as there are operations, making a bundle is unfinished
      exactly if it never ends. */
  lemma UnfinishedNeverEnds(r: ProposerResult, cs: seq<Candidate>, lim: Limits, deposits: map<Address, nat>,
                            isV06: bool, notified: bool, world: World, rounds: nat, ops: seq<Op>)
    requires CandidatesOk(cs, lim.spec) && AssembledOk(cs, lim, deposits, world.sign)
    requires Reflects(r, cs, lim, deposits, isV06, notified, world, rounds)
    requires Subseq(CandidateOps(cs), ops) && rounds >= |ops|
    ensures r.Unfinished? <==> && !AssemblyPanics(cs, lim)
                               && NeverEnds(Assembled(cs, lim, deposits, world.sign), Turns(lim.spec, isV06, world))
  {
    var start := Assembled(cs, lim, deposits, world.sign);
    AssembledSize(cs, lim, deposits, world.sign, ops);
    GoingNeverEnds(start, rounds, lim.spec, isV06, world);
  }

  lemma GoingNeverEnds(c: Context, rounds: nat, spec: ChainSpec, isV06: bool, world: World)
    requires Ok(c) && Supported(c.groups, spec) && rounds >= |Flat(c.groups)|
    ensures StillGoing(c, rounds, spec, isV06, world) <==> NeverEnds(c, Turns(spec, isV06, world))
  {
    var turns := Turns(spec, isV06, world);
    if NeverEnds(c, turns) {
      assert Iterate(c, rounds, turns).Some? && Iterate(c, rounds + 1, turns).Some?;
      IterateLast(c, rounds, turns);
    } else {
      NothingLeft(c, rounds, spec, isV06, world);
    }
  }

  /** Makes a bundle of some of the operations offered, in any world. */
  method MakeBundle(ops: seq<Op>, limits: Limits, deposits: map<Address, nat>, isV06: bool, notified: bool,
                    world: World, rounds: nat)
    returns (r: ProposerResult, ghost cs: seq<Candidate>, ghost lim: Limits)
    requires forall i | 0 <= i < |ops| && ops[i].paymaster.Some? :: ops[i].infos.paymaster.Some?
    ensures r.NoOperationsAfterFeeFilter? <==> ops == []
    ensures Subseq(CandidateOps(cs), ops) && lim == limits.(senders := lim.senders) && CandidatesOk(cs, lim.spec)
    ensures lim.senders == set i | 0 <= i < |cs| :: cs[i].op.sender
    ensures ops != [] ==>
              && cs == Simulated(Limited(ops, limits.spec, limits.maxBundleGas), world)
              && AssembledOk(cs, lim, deposits, world.sign)
              && Reflects(r, cs, lim, deposits, isV06, notified, world, rounds)
    ensures r.Made? ==> Sendable(r.bundle, lim, deposits) && Conserved(r.bundle, DraftOf(cs, lim, deposits).skipped, cs)
    ensures r.Made? ==> StorageExact(r.bundle, cs, lim, deposits)
    ensures r.Made? ==> SignedExactly(r.bundle, Assembled(cs, lim, deposits, world.sign), lim.spec, isV06, world)
    ensures r.Unfinished? && rounds >= |ops| ==>
              NeverEnds(Assembled(cs, lim, deposits, world.sign), Turns(lim.spec, isV06, world))
  {
    cs, lim := [], limits.(senders := SenderSet([]));
    if ops == [] { return NoOperationsAfterFeeFilter, cs, lim; }
    var candidates := GatherCandidates(ops, limits.spec, limits.maxBundleGas, world);
    cs, lim := candidates, limits.(senders := SenderSet(candidates));
    r := Propose(candidates, limits.(senders := SenderSet(candidates)), deposits, isV06, notified, world, rounds);
    if rounds >= |ops| { UnfinishedNeverEnds(r, cs, lim, deposits, isV06, notified, world, rounds, ops); }
  }
}
