/** What holds of a proposal while it is assembled, for every list of candidates. */
module AssemblyLaws {
  import opened Primitives
  import opened Lists
  import opened Storage
  import opened UserOps
  import opened Proposal
  import opened Rejections
  import opened Rounds
  import opened Percent
  import opened BundleGas
  import opened Assembly

  function CandidateOps(cs: seq<Candidate>): (r: seq<Op>) {
    if cs == [] then [] else CandidateOps(cs[..|cs| - 1]) + [cs[|cs| - 1].op]
  }

  lemma {:induction false} CandidateOpsLength(cs: seq<Candidate>)
    ensures |CandidateOps(cs)| == |cs|
    decreases |cs|
  {
    if cs != [] { CandidateOpsLength(cs[..|cs| - 1]); }
  }

  lemma {:induction false} CandidateOpsCons(c: Candidate, cs: seq<Candidate>, op: Op)
    ensures Count(CandidateOps([c] + cs), op) == Count(CandidateOps(cs), op) + if c.op == op then 1 else 0
    decreases |cs|
  {
    if cs == [] {
      assert [c] + cs == [c] && [c][..0] == [] && CandidateOps([c]) == [] + [c.op] == [c.op];
    } else {
      var before, last := cs[..|cs| - 1], cs[|cs| - 1];
      CandidateOpsCons(c, before, op);
      assert ([c] + cs)[..|cs|] == [c] + before;
      CountConcat(CandidateOps([c] + before), [last.op], op);
      CountConcat(CandidateOps(before), [last.op], op);
    }
  }

  /** What a paymaster pays at most for these operations. */
  function Spent(ops: seq<Op>, paymaster: Address): (n: nat) {
    if ops == [] then 0
    else (if ops[0].paymaster == Some(paymaster) then ops[0].maxGasCost else 0) + Spent(ops[1..], paymaster)
  }

  /** Every candidate is included, rejected or skipped, and only once. */
  ghost predicate Accounted(d: Draft, cs: seq<Candidate>) {
    forall op :: Tally(d.ctx, op) + Count(d.skipped, op) == Count(CandidateOps(cs), op)
  }

  predicate Bounded(d: Draft, lim: Limits) {
    d.ctx.groups == [] || (Supported(d.ctx.groups, lim.spec) && WithinLimits(d.ctx.groups, lim))
  }

  /** What is left of a deposit is what the included operations leave of it. */
  ghost predicate Solvent(d: Draft, balances: map<Address, nat>) {
    && d.balances.Keys == balances.Keys
    && (forall p | p in balances :: d.balances[p] + Spent(Flat(d.ctx.groups), p) == balances[p])
    && (forall op | op in Flat(d.ctx.groups) && op.paymaster.Some? :: op.paymaster.value in balances)
  }

  predicate Isolated(ops: seq<Op>, senders: set<Address>) {
    forall op | op in ops :: !AccessesOther(op, senders)
  }

  /** The storages counted too many are those of operations skipped too late. */
  ghost predicate LeaksRecorded(d: Draft) {
    forall s :: Surplus(d.ctx, s) == Count(d.leaked, s)
  }

  ghost predicate Sound(d: Draft, cs: seq<Candidate>, balances: map<Address, nat>, lim: Limits) {
    && Ok(d.ctx) && Accounted(d, cs) && Bounded(d, lim) && Solvent(d, balances)
    && Isolated(Flat(d.ctx.groups), lim.senders) && LeaksRecorded(d)
  }

  // ---------------------------------------------------------------- failed simulations

  lemma {:induction false} BlameAllKeeps(updates: map<Address, EntityUpdate>, rs: seq<Rejection>, vs: seq<Violation>,
                                         infos: EntityInfos)
    requires Accounts(updates, rs)
    ensures Accounts(BlameAll(updates, vs, infos), rs) && Upholds(updates, BlameAll(updates, vs, infos))
    decreases |vs|
  {
    if vs != [] {
      var blamed := BlamedBy(vs[0]);
      var next := updates;
      if blamed.Some? {
        var info := InfoOf(blamed.value.kind, infos);
        next := updates[blamed.value.address := BlameUpdate(blamed.value, infos)];
        InvalidateKeeps(updates, rs, blamed.value, info.None? || info.value.isStaked);
      }
      BlameAllKeeps(next, rs, vs[1..], infos);
    }
  }

  /** A failed simulation amends the paymaster at most once and downgrades nothing. */
  lemma {:induction false} ProcessViolationsKeeps(c: Context, op: Op, vs: seq<Violation>, infos: EntityInfos)
    requires Accounts(c.updates, c.rejected)
    ensures var r := ProcessViolations(c, op, vs, infos);
            && Accounts(r.updates, r.rejected) && Upholds(c.updates, r.updates)
            && |r.rejected| == |c.rejected| + 1 && r.rejected[..|c.rejected|] == c.rejected
            && r.rejected[|c.rejected|].op == op
            && r.groups == c.groups && r.held == c.held
  {
    var r := ProcessViolations(c, op, vs, infos);
    var last := r.rejected[|c.rejected|];
    if IsStaked(infos.factory) || infos.sender.isStaked {
      AmendKeeps(c.updates, c.rejected, last);
      var guilty := if IsStaked(infos.factory) then infos.factory.value.entity else infos.sender.entity;
      InvalidateKeeps(AmendOpt(c.updates, last.amended), r.rejected, guilty, true);
    } else {
      BlameAllKeeps(c.updates, c.rejected, vs, infos);
      AmendKeeps(BlameAll(c.updates, vs, infos), c.rejected, last);
    }
  }

  // ---------------------------------------------------------------- one candidate

  lemma CandidateOpsStep(cs: seq<Candidate>, c: Candidate, op: Op)
    ensures Count(CandidateOps(cs + [c]), op) == Count(CandidateOps(cs), op) + if op == c.op then 1 else 0
  {
    assert (cs + [c])[..|cs|] == cs;
    CountConcat(CandidateOps(cs), [c.op], op);
  }

  lemma RejectionStep(c: Context, r: Rejection, op: Op)
    ensures Tally(c.(rejected := c.rejected + [r]), op) == Tally(c, op) + if op == r.op then 1 else 0
  {
    assert (c.rejected + [r])[..|c.rejected|] == c.rejected;
    CountConcat(RejectedOps(c.rejected), [r.op], op);
  }

  lemma RejectedStep(d: Draft, d': Draft, cs: seq<Candidate>, c: Candidate, balances: map<Address, nat>, lim: Limits)
    requires Sound(d, cs, balances, lim) && Accounts(d'.ctx.updates, d'.ctx.rejected)
    requires d' == d.(ctx := d'.ctx) && d'.ctx.groups == d.ctx.groups && d'.ctx.held == d.ctx.held
    requires |d'.ctx.rejected| == |d.ctx.rejected| + 1 && d'.ctx.rejected[..|d.ctx.rejected|] == d.ctx.rejected
    requires d'.ctx.rejected[|d.ctx.rejected|].op == c.op
    ensures Sound(d', cs + [c], balances, lim)
  {
    var r := d'.ctx.rejected[|d.ctx.rejected|];
    assert d'.ctx.rejected == d.ctx.rejected + [r];
    forall op ensures Tally(d'.ctx, op) + Count(d'.skipped, op) == Count(CandidateOps(cs + [c]), op) {
      CandidateOpsStep(cs, c, op);
      RejectionStep(d.ctx, r, op);
    }
    assert forall s :: Surplus(d'.ctx, s) == Surplus(d.ctx, s);
  }

  lemma SkipStep(d: Draft, cs: seq<Candidate>, c: Candidate, balances: map<Address, nat>, lim: Limits)
    requires Sound(d, cs, balances, lim)
    ensures Sound(Skip(d, c.op), cs + [c], balances, lim)
  {
    forall op ensures Count(d.skipped + [c.op], op) == Count(d.skipped, op) + (if op == c.op then 1 else 0) {
      CountConcat(d.skipped, [c.op], op);
    }
    forall op ensures Tally(d.ctx, op) + Count(d.skipped + [c.op], op) == Count(CandidateOps(cs + [c]), op) {
      CandidateOpsStep(cs, c, op);
    }
  }

  lemma LeakStep(d: Draft, cs: seq<Candidate>, c: Candidate, balances: map<Address, nat>, lim: Limits)
    requires Sound(d, cs, balances, lim)
    ensures Sound(SkipLeaking(d, c.op), cs + [c], balances, lim)
  {
    SkipStep(d, cs, c, balances, lim);
    var d' := SkipLeaking(d, c.op);
    var s0 := Skip(d, c.op);
    assert forall op :: Tally(d'.ctx, op) == Tally(s0.ctx, op);
    forall s ensures Surplus(d'.ctx, s) == Count(d'.leaked, s) {
      assert Surplus(d.ctx, s) == Count(d.leaked, s);
      CountConcat(d.ctx.held, [c.op.storage], s);
      CountConcat(d.leaked, [c.op.storage], s);
    }
  }

  lemma {:induction false} SpentRemoveAt(ops: seq<Op>, i: nat, p: Address)
    requires i < |ops|
    ensures Spent(ops, p) == Spent(RemoveAt(ops, i), p) + if ops[i].paymaster == Some(p) then ops[i].maxGasCost else 0
    decreases i
  {
    if i == 0 {
      assert RemoveAt(ops, 0) == ops[1..];
    } else {
      SpentRemoveAt(ops[1..], i - 1, p);
      assert RemoveAt(ops, i)[1..] == RemoveAt(ops[1..], i - 1);
    }
  }

  lemma RemoveAtMember<T>(s: seq<T>, i: nat, x: T)
    requires i < |s| && x in s
    ensures x == s[i] || x in RemoveAt(s, i)
  {
    CountRemoveAt(s, i, x);
    CountMember(s, x);
    CountMember(RemoveAt(s, i), x);
  }

  lemma {:induction false} IncludeAccounts(d: Draft, cs: seq<Candidate>, c: Candidate, lim: Limits)
    requires Ok(d.ctx) && Accounted(d, cs) && LeaksRecorded(d) && Supported(AddOp(d.ctx.groups, c.op), lim.spec)
    ensures var d' := Include(d, c.op, lim); Ok(d'.ctx) && Accounted(d', cs + [c]) && LeaksRecorded(d')
  {
    var d' := Include(d, c.op, lim);
    var all := Flat(d'.ctx.groups);
    AddOpWellFormed(d.ctx.groups, c.op);
    var i := AddOpFlat(d.ctx.groups, c.op);
    forall op ensures Tally(d'.ctx, op) + Count(d'.skipped, op) == Count(CandidateOps(cs + [c]), op) {
      CandidateOpsStep(cs, c, op);
      CountRemoveAt(all, i, op);
    }
    RemoveAtStorages(all, i);
    forall s ensures Surplus(d'.ctx, s) == Surplus(d.ctx, s) {
      CountRemoveAt(Storages(all), i, s);
      CountConcat(d.ctx.held, [c.op.storage], s);
    }
  }

  lemma {:induction false} IncludeSolvent(d: Draft, op: Op, balances: map<Address, nat>, lim: Limits)
    requires Solvent(d, balances) && Isolated(Flat(d.ctx.groups), lim.senders)
    requires Supported(AddOp(d.ctx.groups, op), lim.spec) && Decide(d, op, lim).Take?
    ensures var d' := Include(d, op, lim); Solvent(d', balances) && Isolated(Flat(d'.ctx.groups), lim.senders)
  {
    var d' := Include(d, op, lim);
    var all := Flat(d'.ctx.groups);
    var i := AddOpFlat(d.ctx.groups, op);
    forall p | p in balances ensures d'.balances[p] + Spent(all, p) == balances[p] {
      SpentRemoveAt(all, i, p);
    }
    forall x | x in all ensures x == op || x in Flat(d.ctx.groups) {
      RemoveAtMember(all, i, x);
    }
  }

  lemma ConsiderKeeps(d: Draft, cs: seq<Candidate>, c: Candidate, balances: map<Address, nat>, lim: Limits)
    requires Sound(d, cs, balances, lim) && Supported(d.ctx.groups, lim.spec) && CandidateOk(c, lim.spec)
    ensures Sound(Consider(d, c, lim), cs + [c], balances, lim)
  {
    AddOpKeys(d.ctx.groups, c.op);
    var d' := Consider(d, c, lim);
    match c.verdict
    case Violates(vs, infos) =>
      ProcessViolationsKeeps(d.ctx, c.op, vs, infos);
      RejectedStep(d, d', cs, c, balances, lim);
    case OutOfTime =>
      AmendKeeps(d.ctx.updates, d.ctx.rejected, Rejection(c.op, None));
      RejectedStep(d, d', cs, c, balances, lim);
    case Valid =>
      match Decide(d, c.op, lim)
      case Drop => SkipStep(d, cs, c, balances, lim);
      case Leak => LeakStep(d, cs, c, balances, lim);
      case LeakAndBlame =>
        LeakStep(d, cs, c, balances, lim);
        BlamedDoesNotMatter(SkipLeaking(d, c.op), d'.blamed, cs + [c], balances, lim);
      case Take =>
        IncludeAccounts(d, cs, c, lim);
        IncludeSolvent(d, c.op, balances, lim);
  }

  lemma BlamedDoesNotMatter(d: Draft, blamed: seq<EntityInfo>, cs: seq<Candidate>, balances: map<Address, nat>,
                            lim: Limits)
    requires Sound(d, cs, balances, lim)
    ensures Sound(d.(blamed := blamed), cs, balances, lim)
  {
  }

  lemma StartSound(balances: map<Address, nat>, lim: Limits)
    ensures Sound(Start(balances), [], balances, lim)
  {
    assert forall s :: Surplus(EMPTY, s) == 0;
  }

  /** The assembled draft is sound, for every list of candidates and all balances. */
  lemma {:induction false} DrawSound(balances: map<Address, nat>, cs: seq<Candidate>, lim: Limits)
    requires CandidatesOk(cs, lim.spec)
    ensures Sound(Draw(balances, cs, lim), cs, balances, lim)
    decreases |cs|
  {
    if cs == [] {
      StartSound(balances, lim);
    } else {
      var before, c := cs[..|cs| - 1], cs[|cs| - 1];
      DrawSound(balances, before, lim);
      assert cs == before + [c];
      DrawNext(balances, before, c, lim);
    }
  }

  lemma DrawNext(balances: map<Address, nat>, before: seq<Candidate>, c: Candidate, lim: Limits)
    requires CandidatesOk(before, lim.spec) && CandidateOk(c, lim.spec)
    requires Sound(Draw(balances, before, lim), before, balances, lim)
    ensures CandidatesOk(before + [c], lim.spec)
    ensures Sound(Draw(balances, before + [c], lim), before + [c], balances, lim)
  {
    ConsiderKeeps(Draw(balances, before, lim), before, c, balances, lim);
    assert (before + [c])[..|before|] == before;
  }

  lemma ConsiderSize(d: Draft, c: Candidate, lim: Limits)
    requires Supported(d.ctx.groups, lim.spec) && CandidateOk(c, lim.spec)
    ensures |Flat(Consider(d, c, lim).ctx.groups)| <= |Flat(d.ctx.groups)| + 1
  {
    GroupsAfter(d, c, lim);
    AddOpSize(d.ctx.groups, c.op);
  }

  lemma AddOpSize(gs: seq<Group>, op: Op)
    ensures |Flat(AddOp(gs, op))| == |Flat(gs)| + 1
  {
    var i := AddOpFlat(gs, op);
    assert |RemoveAt(Flat(AddOp(gs, op)), i)| == |Flat(AddOp(gs, op))| - 1;
  }

  lemma GroupsAfter(d: Draft, c: Candidate, lim: Limits)
    requires Supported(d.ctx.groups, lim.spec) && CandidateOk(c, lim.spec)
    ensures Consider(d, c, lim).ctx.groups in {d.ctx.groups, AddOp(d.ctx.groups, c.op)}
  {
    AddOpKeys(d.ctx.groups, c.op);
  }

  /** Every candidate adds at most one operation. */
  lemma {:induction false} DrawSize(balances: map<Address, nat>, cs: seq<Candidate>, lim: Limits)
    requires CandidatesOk(cs, lim.spec)
    ensures |Flat(Draw(balances, cs, lim).ctx.groups)| <= |cs|
    decreases |cs|
  {
    if cs != [] {
      var n := |cs| - 1;
      DrawSize(balances, cs[..n], lim);
      ConsiderSize(Draw(balances, cs[..n], lim), cs[n], lim);
    }
  }

  // ---------------------------------------------------------------- after assembly

  lemma {:induction false} SpentShrinks(xs: seq<Op>, ys: seq<Op>, p: Address)
    requires Subseq(xs, ys)
    ensures Spent(xs, p) <= Spent(ys, p)
    decreases |ys|
  {
    if xs != [] {
      if xs[0] == ys[0] && Subseq(xs[1..], ys[1..]) {
        SpentShrinks(xs[1..], ys[1..], p);
      } else {
        SpentShrinks(xs, ys[1..], p);
      }
    }
  }

  /** Everything the limits promised of the draft is promised of what it shrinks to. */
  lemma ShrunkDraft(d: Draft, c: Context, cs: seq<Candidate>, balances: map<Address, nat>, lim: Limits)
    requires Sound(d, cs, balances, lim) && Rejects(d.ctx, c)
    ensures c.groups != [] ==> && Supported(c.groups, lim.spec) && WithinLimits(c.groups, lim)
                               && GasEstimate(c.groups, lim.spec) * lim.gasPrice <= lim.maxFee
    ensures forall p | p in balances :: Spent(Flat(c.groups), p) <= balances[p]
    ensures forall op | op in Flat(c.groups) && op.paymaster.Some? :: op.paymaster.value in balances
    ensures Isolated(Flat(c.groups), lim.senders)
    ensures forall op :: Tally(c, op) + Count(d.skipped, op) == Count(CandidateOps(cs), op)
    ensures forall s :: Surplus(c, s) == Count(d.leaked, s)
  {
    var gs := d.ctx.groups;
    ShrinksFlat(c.groups, gs);
    if c.groups != [] {
      assert gs != [];
      LimitsShrink(c.groups, gs, lim.spec, false);
      LimitsShrink(c.groups, gs, lim.spec, true);
      TimesMonotone(GasLimit(c.groups, lim.spec, true), GasLimit(gs, lim.spec, true), lim.gasPrice);
      EstimateWithinFee(c.groups, gs, lim.spec, lim.gasPrice, lim.maxFee);
    }
    forall p | p in balances ensures Spent(Flat(c.groups), p) <= balances[p] {
      SpentShrinks(Flat(c.groups), Flat(gs), p);
    }
    forall op | op in Flat(c.groups)
      ensures !AccessesOther(op, lim.senders) && (op.paymaster.Some? ==> op.paymaster.value in balances)
    {
      SubseqMember(Flat(c.groups), Flat(gs), op);
    }
  }

  // ---------------------------------------------------------------- expected storage

  lemma {:induction false} SlotSetMember(held: seq<ExpectedStorage>, k: StorageSlot)
    ensures k in SlotSet(held) <==> exists s :: k in s && Count(held, s) > 0
    decreases |held|
  {
    if held != [] {
      SlotSetMember(held[1..], k);
      if s :| k in s && Count(held[1..], s) > 0 {
        assert Count(held, s) > 0;
      }
      if s :| k in s && Count(held, s) > 0 {
        assert s == held[0] || Count(held[1..], s) > 0;
      }
      assert Count(held, held[0]) > 0;
    }
  }

  lemma {:induction false} SlotSetConcat(a: seq<ExpectedStorage>, b: seq<ExpectedStorage>)
    ensures SlotSet(a + b) == SlotSet(a) + SlotSet(b)
    decreases |a|
  {
    if a == [] {
      assert a + b == b;
    } else {
      SlotSetConcat(a[1..], b);
      assert (a + b)[1..] == a[1..] + b;
    }
  }

  /** The slots held are those the operations expect and those that leaked. */
  lemma HeldSlots(c: Context, leaked: seq<ExpectedStorage>)
    requires forall s :: Surplus(c, s) == Count(leaked, s)
    ensures SlotSet(c.held) == SlotSet(Storages(Flat(c.groups))) + SlotSet(leaked)
  {
    var own := Storages(Flat(c.groups));
    assert forall s :: Count(c.held, s) == Count(own, s) + Count(leaked, s) by {
      forall s ensures Count(c.held, s) == Count(own, s) + Count(leaked, s) {
        assert Surplus(c, s) == Count(leaked, s);
      }
    }
    forall k ensures k in SlotSet(c.held) <==> k in SlotSet(own) + SlotSet(leaked) {
      SlotSetMember(c.held, k);
      SlotSetMember(own, k);
      SlotSetMember(leaked, k);
    }
  }

  /** What the index shows is the set of slots of the storages held. */
  lemma SlotSetTracks(inner: ExpectedStorage, counts: SlotCounts, held: seq<ExpectedStorage>)
    requires Tracks(inner, counts, held)
    ensures inner.Keys == SlotSet(held)
  {
    forall k ensures k in inner <==> k in SlotSet(held) { SlotSetHolders(held, k); }
  }

  lemma {:induction false} SlotSetHolders(held: seq<ExpectedStorage>, k: StorageSlot)
    ensures k in SlotSet(held) <==> Holders(held, k) > 0
    decreases |held|
  {
    if held != [] { SlotSetHolders(held[1..], k); }
  }

  /** Each included operation finds all its slots, with its own values, in the index. */
  lemma StorageCoversOps(c: Context, inner: ExpectedStorage, counts: SlotCounts, i: nat)
    requires Ok(c) && Tracks(inner, counts, c.held) && i < |Flat(c.groups)|
    ensures Flat(c.groups)[i].storage in c.held
    ensures forall k | k in Flat(c.groups)[i].storage ::
              CountAt(counts, k) > 0 && k in inner && inner[k] == Flat(c.groups)[i].storage[k]
  {
    var s := Flat(c.groups)[i].storage;
    RemoveAtStorages(Flat(c.groups), i);
    CountMember(Storages(Flat(c.groups)), s);
    assert Surplus(c, s) >= 0;
    CountMember(c.held, s);
    TracksMember(inner, counts, c.held, s);
  }

  predicate Agreed(expected: ExpectedStorage, all: ExpectedStorage) {
    forall k | k in expected :: k in all && all[k] == expected[k]
  }

  /** The map holds the slots of these storages, each with its own value, and no others. */
  predicate Indexes(all: ExpectedStorage, held: seq<ExpectedStorage>) {
    all.Keys == SlotSet(held) && forall i | 0 <= i < |held| :: Agreed(held[i], all)
  }

  lemma {:induction false} SlotHolder(held: seq<ExpectedStorage>, k: StorageSlot) returns (i: nat)
    requires k in SlotSet(held)
    ensures i < |held| && k in held[i]
    decreases |held|
  {
    if k in held[0] {
      i := 0;
    } else {
      i := SlotHolder(held[1..], k);
      i := i + 1;
    }
  }

  /** The storages determine the map. */
  lemma IndexUnique(a: ExpectedStorage, b: ExpectedStorage, held: seq<ExpectedStorage>)
    requires Indexes(a, held) && Indexes(b, held)
    ensures a == b
  {
    forall k | k in a.Keys ensures a[k] == b[k] {
      var i := SlotHolder(held, k);
      assert Agreed(held[i], a) && Agreed(held[i], b);
    }
  }

  lemma TracksIndexes(inner: ExpectedStorage, counts: SlotCounts, held: seq<ExpectedStorage>)
    requires Tracks(inner, counts, held)
    ensures Indexes(inner, held)
  {
    SlotSetTracks(inner, counts, held);
    forall i | 0 <= i < |held| ensures Agreed(held[i], inner) { TracksMember(inner, counts, held, held[i]); }
  }

  // ---------------------------------------------------------------- what leaks

  /** The candidate at this place is skipped after its storage was merged. */
  predicate LeaksAt(balances: map<Address, nat>, cs: seq<Candidate>, lim: Limits, i: nat)
    requires CandidatesOk(cs, lim.spec) && i < |cs|
  {
    var d := Draw(balances, cs[..i], lim);
    AddOpKeys(d.ctx.groups, cs[i].op);
    cs[i].verdict.Valid? && (Decide(d, cs[i].op, lim).Leak? || Decide(d, cs[i].op, lim).LeakAndBlame?)
  }

  lemma LeaksAtPrefix(balances: map<Address, nat>, cs: seq<Candidate>, lim: Limits, n: nat, i: nat)
    requires CandidatesOk(cs, lim.spec) && i < n <= |cs|
    ensures LeaksAt(balances, cs[..n], lim, i) <==> LeaksAt(balances, cs, lim, i)
  {
    assert cs[..n][..i] == cs[..i];
  }

  lemma ConsiderLeaks(d: Draft, c: Candidate, lim: Limits)
    requires Supported(d.ctx.groups, lim.spec) && CandidateOk(c, lim.spec)
    ensures Supported(AddOp(d.ctx.groups, c.op), lim.spec)
    ensures Consider(d, c, lim).leaked == d.leaked +
              if c.verdict.Valid? && (Decide(d, c.op, lim).Leak? || Decide(d, c.op, lim).LeakAndBlame?)
              then [c.op.storage] else []
  {
    AddOpKeys(d.ctx.groups, c.op);
  }

  lemma DrawLeaks(balances: map<Address, nat>, cs: seq<Candidate>, lim: Limits, n: nat)
    requires CandidatesOk(cs, lim.spec) && n + 1 == |cs|
    ensures Draw(balances, cs, lim).leaked ==
            Draw(balances, cs[..n], lim).leaked + if LeaksAt(balances, cs, lim, n) then [cs[n].op.storage] else []
  {
    ConsiderLeaks(Draw(balances, cs[..n], lim), cs[n], lim);
  }

  /** What leaked was expected by such a candidate. */
  lemma {:induction false} LeakHasCandidate(balances: map<Address, nat>, cs: seq<Candidate>, lim: Limits,
                                            s: ExpectedStorage)
    returns (i: nat)
    requires CandidatesOk(cs, lim.spec) && s in Draw(balances, cs, lim).leaked
    ensures i < |cs| && LeaksAt(balances, cs, lim, i) && cs[i].op.storage == s
    decreases |cs|
  {
    var n := |cs| - 1;
    DrawLeaks(balances, cs, lim, n);
    if s in Draw(balances, cs[..n], lim).leaked {
      i := LeakHasCandidate(balances, cs[..n], lim, s);
      LeaksAtPrefix(balances, cs, lim, n, i);
    } else {
      i := n;
    }
  }

  lemma {:induction false} LeakedStays(balances: map<Address, nat>, cs: seq<Candidate>, lim: Limits, m: nat,
                                       s: ExpectedStorage)
    requires CandidatesOk(cs, lim.spec) && m <= |cs| && s in Draw(balances, cs[..m], lim).leaked
    ensures s in Draw(balances, cs, lim).leaked
    decreases |cs|
  {
    if m == |cs| {
      assert cs[..m] == cs;
    } else {
      var n := |cs| - 1;
      assert cs[..n][..m] == cs[..m];
      LeakedStays(balances, cs[..n], lim, m, s);
      DrawLeaks(balances, cs, lim, n);
    }
  }

  /** What such a candidate expected leaked. */
  lemma CandidateLeaks(balances: map<Address, nat>, cs: seq<Candidate>, lim: Limits, i: nat)
    requires CandidatesOk(cs, lim.spec) && i < |cs| && LeaksAt(balances, cs, lim, i)
    ensures cs[i].op.storage in Draw(balances, cs, lim).leaked
  {
    LeaksAtPrefix(balances, cs, lim, i + 1, i);
    DrawLeaks(balances, cs[..i + 1], lim, i);
    LeakedStays(balances, cs, lim, i + 1, cs[i].op.storage);
  }

  /** Every slot that leaked is one that these operations expect. */
  predicate LeaksCovered(balances: map<Address, nat>, cs: seq<Candidate>, lim: Limits, ops: seq<Op>)
    requires CandidatesOk(cs, lim.spec)
  {
    forall i | 0 <= i < |cs| && LeaksAt(balances, cs, lim, i) :: cs[i].op.storage.Keys <= SlotSet(Storages(ops))
  }

  lemma LeakedSlots(balances: map<Address, nat>, cs: seq<Candidate>, lim: Limits, ops: seq<Op>)
    requires CandidatesOk(cs, lim.spec)
    ensures SlotSet(Draw(balances, cs, lim).leaked) <= SlotSet(Storages(ops)) <==> LeaksCovered(balances, cs, lim, ops)
  {
    var leaked, slots := Draw(balances, cs, lim).leaked, SlotSet(Storages(ops));
    if LeaksCovered(balances, cs, lim, ops) {
      forall k | k in SlotSet(leaked) ensures k in slots {
        var j := SlotHolder(leaked, k);
        var i := LeakHasCandidate(balances, cs, lim, leaked[j]);
      }
    }
    if SlotSet(leaked) <= slots {
      forall i | 0 <= i < |cs| && LeaksAt(balances, cs, lim, i) ensures cs[i].op.storage.Keys <= slots {
        CandidateLeaks(balances, cs, lim, i);
        HeldInSlotSet(leaked, cs[i].op.storage);
      }
    }
  }

  lemma {:induction false} HeldInSlotSet(held: seq<ExpectedStorage>, s: ExpectedStorage)
    requires s in held
    ensures s.Keys <= SlotSet(held)
    decreases |held|
  {
    if held[0] != s { HeldInSlotSet(held[1..], s); }
  }

  /** The expected storage of a bundle drawn from these candidates, after any rejections, is
      that of its own operations if and only if every candidate that was skipped after its
      storage was merged expects only slots that some operation of the bundle expects too. */
  lemma StorageOfBundle(balances: map<Address, nat>, cs: seq<Candidate>, lim: Limits, c: Context, all: ExpectedStorage)
    requires CandidatesOk(cs, lim.spec) && Rejects(Draw(balances, cs, lim).ctx, c) && Indexes(all, c.held)
    ensures Indexes(all, Storages(Flat(c.groups))) <==> LeaksCovered(balances, cs, lim, Flat(c.groups))
  {
    var d := Draw(balances, cs, lim);
    DrawSound(balances, cs, lim);
    ShrunkDraft(d, c, cs, balances, lim);
    HeldSlots(c, d.leaked);
    LeakedSlots(balances, cs, lim, Flat(c.groups));
    OwnAgreed(c, all);
  }

  lemma OwnAgreed(c: Context, all: ExpectedStorage)
    requires Ok(c) && Indexes(all, c.held)
    ensures forall i | 0 <= i < |Storages(Flat(c.groups))| :: Agreed(Storages(Flat(c.groups))[i], all)
  {
    var own := Storages(Flat(c.groups));
    forall i | 0 <= i < |own| ensures Agreed(own[i], all) {
      CountMember(own, own[i]);
      assert Surplus(c, own[i]) >= 0;
      CountMember(c.held, own[i]);
      var j :| 0 <= j < |c.held| && c.held[j] == own[i];
    }
  }

  /** The figures of a bundle of one unaggregated operation. */
  lemma {:induction false} SingleFigures(op: Op, spec: ChainSpec, includeDa: bool)
    requires op.aggregator.None?
    ensures var gs := AddOp([], op);
            && Supported(gs, spec) && Flat(gs) == [op] && WellFormed(gs)
            && GasLimit(gs, spec, includeDa) ==
               Max(spec.sharedGas + OpGas(op, includeDa), Times(132, spec.calldataFloorByteGas) + op.calldataFloorGas)
            && TransactionSize(gs, spec) == 399 + op.encodedSize + if op.hasAuthorization then 125 else 0
  {
    var gs := AddOp([], op);
    assert gs[1..] == [] && Flat(gs) == [op] + Flat([]) == [op];
    assert [op][1..] == [];
    assert SumGas([op], includeDa) == OpGas(op, includeDa) + SumGas([], includeDa);
    assert SumFloor([op]) == op.calldataFloorGas + SumFloor([]);
    assert SumSize([op]) == op.encodedSize + (if op.hasAuthorization then 125 else 0) + SumSize([]);
    assert AggregatorGas(gs, spec) == 0 + AggregatorGas([], spec);
  }

  /** Limits generous enough for a bundle of this operation alone. */
  predicate FitsAlone(op: Op, lim: Limits) {
    && op.aggregator.None? && op.paymaster.None?
    && lim.spec.sharedGas == lim.spec.calldataFloorByteGas == op.daGas == op.sponsoredDaGas == op.calldataFloorGas == 0
    && op.computationGas <= lim.maxBundleGas && Times(op.computationGas, lim.gasPrice) <= BufferedFee(lim.maxFee)
    && op.encodedSize + 600 < lim.spec.maxTransactionSize && lim.maxStorageSlots >= 1
  }

  lemma FitsAloneWithin(op: Op, lim: Limits)
    requires FitsAlone(op, lim)
    ensures Supported(AddOp([], op), lim.spec) && WithinLimits(AddOp([], op), lim)
  {
    SingleFigures(op, lim.spec, false);
    SingleFigures(op, lim.spec, true);
  }

  lemma DrawTwo(c1: Candidate, c2: Candidate, lim: Limits)
    requires CandidateOk(c1, lim.spec) && CandidateOk(c2, lim.spec)
    ensures CandidatesOk([c1, c2], lim.spec) && [c1, c2][..0] == []
    ensures Supported(Consider(Start(map[]), c1, lim).ctx.groups, lim.spec)
    ensures Draw(map[], [c1, c2], lim) == Consider(Consider(Start(map[]), c1, lim), c2, lim)
  {
    assert [c1, c2][..1] == [c1] && [c1][..0] == [];
    assert Draw(map[], [c1], lim) == Consider(Start(map[]), c1, lim);
  }

  /** An operation that reads the sender of another is skipped after its storage was merged. */
  lemma LeakFirst(reader: Op, lim: Limits)
    requires FitsAlone(reader, lim) && AccessesOther(reader, lim.senders) && |reader.storage| <= 1
    ensures CandidateOk(Candidate(reader, Valid), lim.spec) && Supported(AddOp([], reader), lim.spec)
    ensures Decide(Start(map[]), reader, lim) == Leak
    ensures Consider(Start(map[]), Candidate(reader, Valid), lim) == SkipLeaking(Start(map[]), reader)
  {
    FitsAloneWithin(reader, lim);
  }

  /** The next one, which expects nothing, is bundled alone. */
  lemma TakeSecond(d: Draft, plain: Op, leaked: ExpectedStorage, slot: StorageSlot, lim: Limits)
    requires FitsAlone(plain, lim) && !AccessesOther(plain, lim.senders) && plain.storage == map[]
             && leaked.Keys == {slot}
    requires d.ctx.groups == [] && d.ctx.held == [leaked] && !d.passedTarget
    ensures CandidateOk(Candidate(plain, Valid), lim.spec) && Supported([], lim.spec)
    ensures Consider(d, Candidate(plain, Valid), lim).ctx.groups == AddOp([], plain)
  {
    FitsAloneWithin(plain, lim);
    TwoSlotSets(leaked, plain.storage);
    assert leaked.Keys + plain.storage.Keys == {slot};
  }

  lemma TwoSlotSets(a: ExpectedStorage, b: ExpectedStorage)
    ensures SlotSet([a]) == a.Keys && SlotSet([a] + [b]) == a.Keys + b.Keys
  {
    assert [a][1..] == [] && ([a] + [b])[1..] == [b] && [b][1..] == [];
  }

  /** So the index of a bundle can hold slots that none of its operations expects. */
  lemma LeakExample() returns (cs: seq<Candidate>, lim: Limits)
    ensures CandidatesOk(cs, lim.spec) && Draw(map[], cs, lim).ctx.groups != []
    ensures !LeaksCovered(map[], cs, lim, Flat(Draw(map[], cs, lim).ctx.groups))
  {
    var infos := EntityInfos(None, EntityInfo(Entity(Account, 1), false), None, None);
    var slot := StorageSlot(7, 7);
    var reader := Op(1, 1, None, None, None, 1, 0, 0, 0, 0, false, 0, infos, map[slot := 5], {2});
    var plain := reader.(hash := 2, sender := 2, storage := map[], accessed := {});
    lim := Limits(ChainSpec(0, 0, false, map[], 10000), 100, 100, 100, 1000, 1, {1, 2});
    assert 2 in reader.accessed;
    cs := [Candidate(reader, Valid), Candidate(plain, Valid)];
    LeakFirst(reader, lim);
    TakeSecond(SkipLeaking(Start(map[]), reader), plain, reader.storage, slot, lim);
    DrawTwo(cs[0], cs[1], lim);
    SingleFigures(plain, lim.spec, false);
    LeakUncovered(cs, lim, plain, slot);
  }

  lemma LeakUncovered(cs: seq<Candidate>, lim: Limits, plain: Op, slot: StorageSlot)
    requires CandidatesOk(cs, lim.spec) && cs != [] && LeaksAt(map[], cs, lim, 0) && slot in cs[0].op.storage
    requires plain.storage == map[]
    ensures !LeaksCovered(map[], cs, lim, [plain])
  {
    assert [plain][1..] == [] && Storages([plain]) == [plain.storage];
    TwoSlotSets(plain.storage, plain.storage);
    assert slot !in SlotSet(Storages([plain]));
  }
}
