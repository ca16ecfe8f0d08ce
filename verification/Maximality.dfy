/** The greedy assembly leaves out nothing it could still take: what made it skip an
    operation still holds of the finished draft. */
module Maximality {
  import opened Primitives
  import opened Lists
  import opened Storage
  import opened UserOps
  import opened Proposal
  import opened BundleGas
  import opened Assembly
  import opened AssemblyLaws
  import opened Decisions
  import opened Percent

  // ---------------------------------------------------------------- adding to more costs more

  lemma {:induction false} AddBoth(gs: seq<Group>, x: Op, op: Op)
    ensures Shrinks(AddOp(gs, op), AddOp(AddOp(gs, x), op))
    decreases |gs|
  {
    if gs == [] {
      AddBothEmpty(x, op);
    } else {
      var g, rest := gs[0], gs[1..];
      AddOpCons(g, rest, op);
      AddOpCons(g, rest, x);
      if g.key == KeyOf(x) {
        var g' := g.(ops := g.ops + [x]);
        AddOpCons(g', rest, op);
        AppendSubseq(g.ops, x);
        if g.key == KeyOf(op) {
          SubseqRefl([op]);
          SubseqConcat(g.ops, g'.ops, [op], [op]);
          ShrinksRefl(rest);
          ShrinksCons(g.(ops := g.ops + [op]), rest, g'.(ops := g'.ops + [op]), rest);
        } else {
          ShrinksRefl(AddOp(rest, op));
          ShrinksCons(g, AddOp(rest, op), g', AddOp(rest, op));
        }
      } else {
        AddOpCons(g, AddOp(rest, x), op);
        if g.key == KeyOf(op) {
          AddOpGrows(rest, x);
          SubseqRefl(g.ops + [op]);
          ShrinksCons(g.(ops := g.ops + [op]), rest, g.(ops := g.ops + [op]), AddOp(rest, x));
        } else {
          AddBoth(rest, x, op);
          SubseqRefl(g.ops);
          ShrinksCons(g, AddOp(rest, op), g, AddOp(AddOp(rest, x), op));
        }
      }
    }
  }

  lemma AddBothEmpty(x: Op, op: Op)
    ensures Shrinks(AddOp([], op), AddOp(AddOp([], x), op))
  {
    var g := Group(KeyOf(x), [x], Unsigned);
    AddOpCons(g, [], op);
    assert [g] + [] == [g];
    SubseqRefl([op]);
    SubseqConcat([], [x], [op], [op]);
    assert [] + [op] == [op];
    ShrinksRefl([]);
    ShrinksRefl(AddOp([], op));
    if KeyOf(x) == KeyOf(op) {
      ShrinksCons(Group(KeyOf(op), [op], Unsigned), [], g.(ops := [x] + [op]), []);
      assert [Group(KeyOf(op), [op], Unsigned)] + [] == AddOp([], op);
    } else {
      assert ([g] + AddOp([], op))[1..] == AddOp([], op);
    }
  }

  lemma AddOpCons(g: Group, rest: seq<Group>, op: Op)
    ensures AddOp([g] + rest, op) ==
            if g.key == KeyOf(op) then [g.(ops := g.ops + [op])] + rest else [g] + AddOp(rest, op)
    ensures rest != [] ==> ([g] + rest)[1..] == rest
  {
    assert ([g] + rest)[1..] == rest;
  }

  lemma ShrinksCons(h: Group, hs: seq<Group>, g: Group, gs: seq<Group>)
    requires h.key == g.key && Subseq(h.ops, g.ops) && Shrinks(hs, gs)
    ensures Shrinks([h] + hs, [g] + gs)
  {
    assert ([h] + hs)[1..] == hs && ([g] + gs)[1..] == gs;
  }

  /** An operation that does not fit does not fit any better after another one is added. */
  lemma LimitsStay(gs: seq<Group>, x: Op, op: Op, lim: Limits)
    requires Supported(AddOp(AddOp(gs, x), op), lim.spec)
    ensures Supported(AddOp(gs, op), lim.spec)
    ensures WithinLimits(AddOp(AddOp(gs, x), op), lim) ==> WithinLimits(AddOp(gs, op), lim)
  {
    var hs, more := AddOp(gs, op), AddOp(AddOp(gs, x), op);
    AddBoth(gs, x, op);
    LimitsShrink(hs, more, lim.spec, false);
    LimitsShrink(hs, more, lim.spec, true);
    TimesMonotone(GasLimit(hs, lim.spec, true), GasLimit(more, lim.spec, true), lim.gasPrice);
  }

  // ---------------------------------------------------------------- storage and deposits

  lemma StorageStays(held: seq<ExpectedStorage>, s: ExpectedStorage, e: ExpectedStorage)
    ensures Compatible(held + [s], e) ==> Compatible(held, e)
    ensures |SlotSet(held + [e])| <= |SlotSet(held + [s] + [e])|
  {
    if Compatible(held + [s], e) {
      forall i | 0 <= i < |held| ensures Agrees(held[i], e) { assert (held + [s])[i] == held[i]; }
    }
    SlotSetConcat(held, [e]);
    SlotSetConcat(held + [s], [e]);
    SlotSetConcat(held, [s]);
    SubsetSize(SlotSet(held + [e]), SlotSet(held + [s] + [e]));
  }

  // ---------------------------------------------------------------- the draft

  predicate Refused(d: Draft, op: Op, lim: Limits) {
    Supported(AddOp(d.ctx.groups, op), lim.spec) && !Decide(d, op, lim).Take?
  }

  /** A later draft holds the same storages or one more, and owes no less. */
  ghost predicate Later(d: Draft, d': Draft) {
    && (d'.ctx.held == d.ctx.held || exists s :: d'.ctx.held == d.ctx.held + [s])
    && d'.balances.Keys == d.balances.Keys && (forall p | p in d.balances :: d'.balances[p] <= d.balances[p])
    && (d.passedTarget ==> d'.passedTarget)
  }

  /** What can be taken later could be taken before. */
  lemma TakenBefore(d: Draft, d': Draft, op: Op, lim: Limits)
    requires Later(d, d') && Supported(AddOp(d.ctx.groups, op), lim.spec)
             && Supported(AddOp(d'.ctx.groups, op), lim.spec)
    requires Decide(d', op, lim).Take? && WithinLimits(AddOp(d.ctx.groups, op), lim)
    ensures Decide(d, op, lim).Take?
  {
    var held, held' := d.ctx.held, d'.ctx.held;
    assert Compatible(held, op.storage) && |SlotSet(held + [op.storage])| <= |SlotSet(held' + [op.storage])| by {
      if held' != held {
        var s :| held' == held + [s];
        StorageStays(held, s, op.storage);
      }
    }
    if op.paymaster.Some? {
      var p := op.paymaster.value;
      assert p in d'.balances.Keys && p in d.balances.Keys && d'.balances[p] <= d.balances[p];
    }
  }

  lemma RefusedLater(d: Draft, d': Draft, op: Op, lim: Limits)
    requires Refused(d, op, lim) && Later(d, d') && Supported(AddOp(d'.ctx.groups, op), lim.spec)
    requires WithinLimits(AddOp(d'.ctx.groups, op), lim) ==> WithinLimits(AddOp(d.ctx.groups, op), lim)
    ensures Refused(d', op, lim)
  {
    if Decide(d', op, lim).Take? { TakenBefore(d, d', op, lim); }
  }

  lemma {:induction false} ConsiderLater(d: Draft, c: Candidate, lim: Limits)
    requires Supported(d.ctx.groups, lim.spec) && CandidateOk(c, lim.spec)
    ensures var d' := Consider(d, c, lim);
            Later(d, d') && (d'.ctx.groups == d.ctx.groups || d'.ctx.groups == AddOp(d.ctx.groups, c.op))
  {
    AddOpKeys(d.ctx.groups, c.op);
    var d' := Consider(d, c, lim);
    if c.verdict.Valid? && Decide(d, c.op, lim).Take? {
      IncludeLater(d, c.op, lim);
    } else if d'.ctx.held != d.ctx.held {
      assert d'.ctx.held == d.ctx.held + [c.op.storage];
    }
  }

  lemma IncludeLater(d: Draft, op: Op, lim: Limits)
    requires Supported(AddOp(d.ctx.groups, op), lim.spec)
    ensures Later(d, Include(d, op, lim))
  {
    assert Include(d, op, lim).ctx.held == d.ctx.held + [op.storage];
  }

  lemma RefusedStays(d: Draft, c: Candidate, op: Op, lim: Limits)
    requires Refused(d, op, lim) && Supported(d.ctx.groups, lim.spec) && CandidateOk(c, lim.spec)
    ensures Refused(Consider(d, c, lim), op, lim)
  {
    var d' := Consider(d, c, lim);
    ConsiderSupported(d, c, lim);
    ConsiderLater(d, c, lim);
    AddOpKeys(d.ctx.groups, op);
    AddOpKeys(d'.ctx.groups, op);
    if d'.ctx.groups != d.ctx.groups { LimitsStay(d.ctx.groups, c.op, op, lim); }
    RefusedLater(d, d', op, lim);
  }

  lemma {:induction false} SkippedRefused(d: Draft, c: Candidate, lim: Limits)
    requires Supported(d.ctx.groups, lim.spec) && CandidateOk(c, lim.spec)
    ensures var d' := Consider(d, c, lim);
            || d'.skipped == d.skipped
            || (d'.skipped == d.skipped + [c.op] && Refused(d, c.op, lim))
  {
    AddOpKeys(d.ctx.groups, c.op);
  }

  lemma MaximalStep(d: Draft, c: Candidate, lim: Limits, op: Op)
    requires Supported(d.ctx.groups, lim.spec) && CandidateOk(c, lim.spec) && op in Consider(d, c, lim).skipped
    requires op in d.skipped ==> Refused(d, op, lim)
    ensures Refused(Consider(d, c, lim), op, lim)
  {
    SkippedRefused(d, c, lim);
    RefusedStays(d, c, op, lim);
  }

  lemma {:induction false} SkippedStayRefused(balances: map<Address, nat>, cs: seq<Candidate>, lim: Limits)
    requires CandidatesOk(cs, lim.spec)
    ensures forall op | op in Draw(balances, cs, lim).skipped :: Refused(Draw(balances, cs, lim), op, lim)
    decreases |cs|
  {
    if cs != [] {
      var n := |cs| - 1;
      var before := Draw(balances, cs[..n], lim);
      SkippedStayRefused(balances, cs[..n], lim);
      forall op | op in Draw(balances, cs, lim).skipped ensures Refused(Draw(balances, cs, lim), op, lim) {
        MaximalStep(before, cs[n], lim, op);
      }
    }
  }

  /** The operation cannot join the bundle: its gas has reached the target, it would be over a
      limit, a slot conflicts, there would be too many slots, it reads another sender's account,
      or what the bundle leaves of its paymaster's deposit, if known, does not cover it. */
  predicate CannotJoin(gs: seq<Group>, held: seq<ExpectedStorage>, op: Op, deposits: map<Address, nat>, lim: Limits) {
    || (gs != [] && Supported(gs, lim.spec) && ComputationGasLimit(gs, lim.spec) >= lim.targetBundleGas)
    || OverLimits(gs, op, lim)
    || Conflicts(held, op)
    || TooManySlots(held, op, lim)
    || ReadsOther(op, lim)
    || UnknownPaymaster(op, deposits)
    || (op.paymaster.Some? && op.paymaster.value in deposits
        && deposits[op.paymaster.value] < Spent(Flat(gs), op.paymaster.value) + op.maxGasCost)
  }

  /** No operation that was skipped could be taken into the finished draft. */
  lemma DrawMaximal(balances: map<Address, nat>, cs: seq<Candidate>, lim: Limits)
    requires CandidatesOk(cs, lim.spec)
    ensures var d := Draw(balances, cs, lim);
            forall op | op in d.skipped :: CannotJoin(d.ctx.groups, d.ctx.held, op, balances, lim)
  {
    var d := Draw(balances, cs, lim);
    SkippedStayRefused(balances, cs, lim);
    DrawTarget(balances, cs, lim);
    DrawSound(balances, cs, lim);
    assert Solvent(d, balances);
    forall op | op in d.skipped ensures CannotJoin(d.ctx.groups, d.ctx.held, op, balances, lim) {
      DecideExactly(d, op, lim);
    }
  }
}
