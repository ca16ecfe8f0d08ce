/** Why the assembly takes an operation, skips it, or skips it too late: each reason by itself,
    and what the reasons come to in the finished draft. */
module Decisions {
  import opened Primitives
  import opened Lists
  import opened Storage
  import opened Percent
  import opened UserOps
  import opened Proposal
  import opened Rejections
  import opened BundleGas
  import opened Assembly
  import opened AssemblyLaws

  // ---------------------------------------------------------------- reasons

  /** The bundle with this operation would be over the gas limit, the fee or the size. */
  predicate OverLimits(gs: seq<Group>, op: Op, lim: Limits) {
    var more := AddOp(gs, op);
    !Supported(more, lim.spec)
    || ComputationGasLimit(more, lim.spec) > lim.maxBundleGas
    || GasLimit(more, lim.spec, true) * lim.gasPrice > BufferedFee(lim.maxFee)
    || TransactionSize(more, lim.spec) >= lim.spec.maxTransactionSize
  }

  /** It expects another value in a slot than a storage held. */
  predicate Conflicts(held: seq<ExpectedStorage>, op: Op) {
    exists i, k | 0 <= i < |held| && k in held[i] && k in op.storage :: held[i][k] != op.storage[k]
  }

  predicate TooManySlots(held: seq<ExpectedStorage>, op: Op, lim: Limits) {
    |SlotSet(held + [op.storage])| > lim.maxStorageSlots
  }

  /** It reads the account of another operation's sender. */
  predicate ReadsOther(op: Op, lim: Limits) {
    exists a | a in op.accessed :: a in lim.senders && a != op.sender
  }

  predicate UnknownPaymaster(op: Op, balances: map<Address, nat>) {
    op.paymaster.Some? && op.paymaster.value !in balances
  }

  predicate ShortOfFunds(op: Op, balances: map<Address, nat>) {
    op.paymaster.Some? && op.paymaster.value in balances && balances[op.paymaster.value] < op.maxGasCost
  }

  /** The reasons that are looked at before the storage is merged. */
  predicate EarlyReason(d: Draft, op: Op, lim: Limits) {
    d.passedTarget || OverLimits(d.ctx.groups, op, lim) || Conflicts(d.ctx.held, op)
  }

  predicate SlotsOrSenders(d: Draft, op: Op, lim: Limits) {
    TooManySlots(d.ctx.held, op, lim) || ReadsOther(op, lim)
  }

  lemma ConflictsExactly(held: seq<ExpectedStorage>, op: Op)
    ensures Compatible(held, op.storage) <==> !Conflicts(held, op)
  {
    if !Compatible(held, op.storage) {
      var i :| 0 <= i < |held| && !Agrees(held[i], op.storage);
      var k :| k in held[i] && k in op.storage && held[i][k] != op.storage[k];
    }
  }

  lemma LimitsExactly(gs: seq<Group>, op: Op, lim: Limits)
    requires Supported(AddOp(gs, op), lim.spec)
    ensures WithinLimits(AddOp(gs, op), lim) <==> !OverLimits(gs, op, lim)
  {
    TimesIsProduct(GasLimit(AddOp(gs, op), lim.spec, true), lim.gasPrice);
  }

  /** Each decision has its reasons, and the reasons leave no other decision. */
  lemma DecideExactly(d: Draft, op: Op, lim: Limits)
    requires Supported(AddOp(d.ctx.groups, op), lim.spec)
    ensures var r, early, late := Decide(d, op, lim), EarlyReason(d, op, lim), SlotsOrSenders(d, op, lim);
            var unknown, short := UnknownPaymaster(op, d.balances), ShortOfFunds(op, d.balances);
            && (r.Drop? <==> early)
            && (r.Leak? <==> !early && (late || unknown))
            && (r.LeakAndBlame? <==> !early && !late && short)
            && (r.Take? <==> !early && !late && !unknown && !short)
  {
    ConflictsExactly(d.ctx.held, op);
    LimitsExactly(d.ctx.groups, op, lim);
  }

  // ---------------------------------------------------------------- the target

  /** The draft is past its target exactly if its operations reach it. */
  predicate TargetShown(d: Draft, lim: Limits) {
    && Supported(d.ctx.groups, lim.spec)
    && (d.passedTarget <==> d.ctx.groups != [] && ComputationGasLimit(d.ctx.groups, lim.spec) >= lim.targetBundleGas)
  }

  lemma ConsiderTarget(d: Draft, c: Candidate, lim: Limits)
    requires TargetShown(d, lim) && CandidateOk(c, lim.spec)
    ensures TargetShown(Consider(d, c, lim), lim)
  {
    ConsiderSupported(d, c, lim);
    AddOpKeys(d.ctx.groups, c.op);
    if c.verdict.Valid? { DecideExactly(d, c.op, lim); }
  }

  lemma {:induction false} DrawTarget(balances: map<Address, nat>, cs: seq<Candidate>, lim: Limits)
    requires CandidatesOk(cs, lim.spec)
    ensures TargetShown(Draw(balances, cs, lim), lim)
    decreases |cs|
  {
    if cs != [] {
      var n := |cs| - 1;
      DrawTarget(balances, cs[..n], lim);
      ConsiderTarget(Draw(balances, cs[..n], lim), cs[n], lim);
    }
  }

  // ---------------------------------------------------------------- the slots

  /** The operations of a bundle expect no more slots than the limit. */
  predicate SlotsBounded(ops: seq<Op>, lim: Limits) {
    |SlotSet(Storages(ops))| <= lim.maxStorageSlots
  }

  /** What is held bounds what the operations expect. */
  lemma HeldBounds(d: Draft, lim: Limits)
    requires LeaksRecorded(d) && |SlotSet(d.ctx.held)| <= lim.maxStorageSlots
    ensures SlotsBounded(Flat(d.ctx.groups), lim)
  {
    HeldSlots(d.ctx, d.leaked);
    SubsetSize(SlotSet(Storages(Flat(d.ctx.groups))), SlotSet(d.ctx.held));
  }

  lemma ConsiderSlots(d: Draft, c: Candidate, lim: Limits)
    requires Supported(d.ctx.groups, lim.spec) && CandidateOk(c, lim.spec)
    ensures var d' := Consider(d, c, lim);
            d'.ctx.groups == d.ctx.groups || |SlotSet(d'.ctx.held)| <= lim.maxStorageSlots
  {
    AddOpKeys(d.ctx.groups, c.op);
    if c.verdict.Valid? { DecideExactly(d, c.op, lim); }
  }

  lemma {:induction false} DrawSlots(balances: map<Address, nat>, cs: seq<Candidate>, lim: Limits)
    requires CandidatesOk(cs, lim.spec)
    ensures SlotsBounded(Flat(Draw(balances, cs, lim).ctx.groups), lim)
    decreases |cs|
  {
    if cs != [] {
      var n := |cs| - 1;
      DrawSlots(balances, cs[..n], lim);
      ConsiderSlots(Draw(balances, cs[..n], lim), cs[n], lim);
      DrawSound(balances, cs, lim);
      if Draw(balances, cs, lim).ctx.groups != Draw(balances, cs[..n], lim).ctx.groups {
        HeldBounds(Draw(balances, cs, lim), lim);
      }
    }
  }

  lemma {:induction false} SlotsShrink(xs: seq<Op>, ys: seq<Op>)
    requires Subseq(xs, ys)
    ensures SlotSet(Storages(xs)) <= SlotSet(Storages(ys))
    decreases |ys|
  {
    if xs != [] {
      SlotsHead(ys);
      if xs[0] == ys[0] && Subseq(xs[1..], ys[1..]) {
        SlotsHead(xs);
        SlotsShrink(xs[1..], ys[1..]);
      } else {
        SlotsShrink(xs, ys[1..]);
      }
    }
  }

  lemma SlotsHead(ops: seq<Op>)
    requires ops != []
    ensures SlotSet(Storages(ops)) == ops[0].storage.Keys + SlotSet(Storages(ops[1..]))
  {
    assert Storages(ops)[1..] == Storages(ops[1..]);
  }

  /** So does whatever rejections leave of it. */
  lemma SlotsOfBundle(balances: map<Address, nat>, cs: seq<Candidate>, lim: Limits, c: Context)
    requires CandidatesOk(cs, lim.spec) && Rejects(Draw(balances, cs, lim).ctx, c)
    ensures SlotsBounded(Flat(c.groups), lim)
  {
    var all := Flat(Draw(balances, cs, lim).ctx.groups);
    DrawSlots(balances, cs, lim);
    ShrinksFlat(c.groups, Draw(balances, cs, lim).ctx.groups);
    SlotsShrink(Flat(c.groups), all);
    SubsetSize(SlotSet(Storages(Flat(c.groups))), SlotSet(Storages(all)));
  }

  // ---------------------------------------------------------------- slots held too many

  /** Some candidate, after those before it, is skipped because of its slots when they are merged. */
  predicate Overflows(balances: map<Address, nat>, cs: seq<Candidate>, lim: Limits)
    requires CandidatesOk(cs, lim.spec)
    decreases |cs|
  {
    cs != [] &&
    var before, c := cs[..|cs| - 1], cs[|cs| - 1];
    var d := Draw(balances, before, lim);
    || Overflows(balances, before, lim)
    || (c.verdict.Valid? && !EarlyReason(d, c.op, lim) && TooManySlots(d.ctx.held, c.op, lim))
  }

  lemma ConsiderHeld(d: Draft, c: Candidate, lim: Limits)
    requires Supported(d.ctx.groups, lim.spec) && CandidateOk(c, lim.spec)
    ensures Consider(d, c, lim).ctx.held ==
            d.ctx.held + if c.verdict.Valid? && !EarlyReason(d, c.op, lim) then [c.op.storage] else []
  {
    AddOpKeys(d.ctx.groups, c.op);
    if c.verdict.Valid? { DecideExactly(d, c.op, lim); }
  }

  lemma MoreSlots(held: seq<ExpectedStorage>, s: ExpectedStorage)
    ensures |SlotSet(held)| <= |SlotSet(held + [s])|
  {
    SlotSetConcat(held, [s]);
    SubsetSize(SlotSet(held), SlotSet(held + [s]));
  }

  lemma OverflowNext(d: Draft, c: Candidate, lim: Limits)
    requires Supported(d.ctx.groups, lim.spec) && CandidateOk(c, lim.spec)
    ensures |SlotSet(Consider(d, c, lim).ctx.held)| > lim.maxStorageSlots <==>
            || |SlotSet(d.ctx.held)| > lim.maxStorageSlots
            || (c.verdict.Valid? && !EarlyReason(d, c.op, lim) && TooManySlots(d.ctx.held, c.op, lim))
  {
    ConsiderHeld(d, c, lim);
    MoreSlots(d.ctx.held, c.op.storage);
    assert d.ctx.held + [] == d.ctx.held;
  }

  /** The draft holds more slots than the limit exactly if a candidate was skipped because of its
      slots: the limit bounds what is sent, but not what is held. */
  lemma {:induction false} OverflowExactly(balances: map<Address, nat>, cs: seq<Candidate>, lim: Limits)
    requires CandidatesOk(cs, lim.spec)
    ensures |SlotSet(Draw(balances, cs, lim).ctx.held)| > lim.maxStorageSlots <==> Overflows(balances, cs, lim)
    decreases |cs|
  {
    if cs != [] {
      var n := |cs| - 1;
      OverflowExactly(balances, cs[..n], lim);
      OverflowNext(Draw(balances, cs[..n], lim), cs[n], lim);
    }
  }

  /** From then on nothing more is taken. */
  lemma OverflowStops(d: Draft, c: Candidate, lim: Limits)
    requires Supported(d.ctx.groups, lim.spec) && CandidateOk(c, lim.spec)
    requires |SlotSet(d.ctx.held)| > lim.maxStorageSlots
    ensures Consider(d, c, lim).ctx.groups == d.ctx.groups
  {
    ConsiderSlots(d, c, lim);
    OverflowNext(d, c, lim);
  }

  /** A candidate is skipped too late exactly if no early reason holds of it but a late one. */
  lemma LeaksExactly(balances: map<Address, nat>, cs: seq<Candidate>, lim: Limits, i: nat)
    requires CandidatesOk(cs, lim.spec) && i < |cs|
    ensures var d, op := Draw(balances, cs[..i], lim), cs[i].op;
            LeaksAt(balances, cs, lim, i) <==>
            && cs[i].verdict.Valid? && !EarlyReason(d, op, lim)
            && (SlotsOrSenders(d, op, lim) || UnknownPaymaster(op, d.balances) || ShortOfFunds(op, d.balances))
  {
    var d := Draw(balances, cs[..i], lim);
    AddOpKeys(d.ctx.groups, cs[i].op);
    DecideExactly(d, cs[i].op, lim);
  }

  // ---------------------------------------------------------------- where every candidate goes

  /** The candidates whose simulation failed or whose time range is wrong. */
  function Invalid(cs: seq<Candidate>): (r: seq<Op>) {
    if cs == [] then []
    else Invalid(cs[..|cs| - 1]) + if cs[|cs| - 1].verdict.Valid? then [] else [cs[|cs| - 1].op]
  }

  lemma ConsiderRejects(d: Draft, c: Candidate, lim: Limits)
    requires Supported(d.ctx.groups, lim.spec) && CandidateOk(c, lim.spec)
    ensures RejectedOps(Consider(d, c, lim).ctx.rejected) ==
            RejectedOps(d.ctx.rejected) + if c.verdict.Valid? then [] else [c.op]
  {
    AddOpKeys(d.ctx.groups, c.op);
    if !c.verdict.Valid? {
      var r := Consider(d, c, lim).ctx.rejected[|d.ctx.rejected|];
      InvalidRejected(d, c, lim);
      RejectedOpsAppend(d.ctx.rejected, r);
    }
  }

  lemma InvalidRejected(d: Draft, c: Candidate, lim: Limits)
    requires Supported(d.ctx.groups, lim.spec) && CandidateOk(c, lim.spec) && !c.verdict.Valid?
    ensures var rs := Consider(d, c, lim).ctx.rejected;
            |rs| == |d.ctx.rejected| + 1 && rs == d.ctx.rejected + [rs[|d.ctx.rejected|]]
            && rs[|d.ctx.rejected|].op == c.op
  {
  }

  /** Nobody answers for an operation whose time range is wrong. */
  lemma OutOfTimeExactly(d: Draft, op: Op, lim: Limits)
    requires Supported(d.ctx.groups, lim.spec) && CandidateOk(Candidate(op, OutOfTime), lim.spec)
    ensures var d' := Consider(d, Candidate(op, OutOfTime), lim);
            && d' == d.(ctx := d'.ctx) && d'.ctx.groups == d.ctx.groups && d'.ctx.held == d.ctx.held
            && d'.ctx.updates == d.ctx.updates && d'.ctx.rejected == d.ctx.rejected + [Rejection(op, None)]
  {
  }

  lemma RejectedOpsAppend(rs: seq<Rejection>, r: Rejection)
    ensures RejectedOps(rs + [r]) == RejectedOps(rs) + [r.op]
  {
    assert (rs + [r])[..|rs|] == rs;
  }

  /** Exactly those are rejected by the assembly, in order. */
  lemma {:induction false} DrawRejects(balances: map<Address, nat>, cs: seq<Candidate>, lim: Limits)
    requires CandidatesOk(cs, lim.spec)
    ensures RejectedOps(Draw(balances, cs, lim).ctx.rejected) == Invalid(cs)
    decreases |cs|
  {
    if cs != [] {
      var n := |cs| - 1;
      DrawRejects(balances, cs[..n], lim);
      ConsiderRejects(Draw(balances, cs[..n], lim), cs[n], lim);
    }
  }

  // ---------------------------------------------------------------- who is blamed for lack of funds

  /** The candidate, after those before it, is skipped because what is left of its paymaster's
      deposit does not cover it, and for no other reason. */
  predicate ShortAfter(balances: map<Address, nat>, before: seq<Candidate>, c: Candidate, lim: Limits)
    requires CandidatesOk(before, lim.spec)
  {
    var d, op := Draw(balances, before, lim), c.op;
    && c.verdict.Valid? && !EarlyReason(d, op, lim) && !SlotsOrSenders(d, op, lim)
    && op.paymaster.Some? && op.paymaster.value in balances
    && balances[op.paymaster.value] - Spent(Flat(d.ctx.groups), op.paymaster.value) < op.maxGasCost
  }

  /** Some such candidate has this paymaster. */
  predicate ShortFor(balances: map<Address, nat>, cs: seq<Candidate>, lim: Limits, info: EntityInfo)
    requires CandidatesOk(cs, lim.spec)
    decreases |cs|
  {
    cs != [] &&
    var before, c := cs[..|cs| - 1], cs[|cs| - 1];
    || ShortFor(balances, before, lim, info)
    || (c.op.infos.paymaster == Some(info) && ShortAfter(balances, before, c, lim))
  }

  lemma ConsiderBlames(d: Draft, c: Candidate, lim: Limits)
    requires Supported(d.ctx.groups, lim.spec) && CandidateOk(c, lim.spec)
    ensures var short := && c.verdict.Valid? && !EarlyReason(d, c.op, lim) && !SlotsOrSenders(d, c.op, lim)
                         && ShortOfFunds(c.op, d.balances);
            Consider(d, c, lim).blamed == d.blamed + if short then [c.op.infos.paymaster.value] else []
  {
    AddOpKeys(d.ctx.groups, c.op);
    if c.verdict.Valid? { DecideExactly(d, c.op, lim); }
  }

  lemma ShortExactly(balances: map<Address, nat>, before: seq<Candidate>, c: Candidate, lim: Limits)
    requires CandidatesOk(before, lim.spec) && CandidateOk(c, lim.spec)
    ensures Consider(Draw(balances, before, lim), c, lim).blamed ==
            Draw(balances, before, lim).blamed
            + if ShortAfter(balances, before, c, lim) then [c.op.infos.paymaster.value] else []
  {
    var d := Draw(balances, before, lim);
    DrawSound(balances, before, lim);
    assert Solvent(d, balances);
    ConsiderBlames(d, c, lim);
  }

  /** The paymasters blamed are those of exactly these candidates. */
  lemma {:induction false} BlamedExactly(balances: map<Address, nat>, cs: seq<Candidate>, lim: Limits, info: EntityInfo)
    requires CandidatesOk(cs, lim.spec)
    ensures info in Draw(balances, cs, lim).blamed <==> ShortFor(balances, cs, lim, info)
    decreases |cs|
  {
    if cs != [] {
      var n := |cs| - 1;
      BlamedExactly(balances, cs[..n], lim, info);
      ShortExactly(balances, cs[..n], cs[n], lim);
    }
  }
}
