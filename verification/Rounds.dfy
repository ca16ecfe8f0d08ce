/** How the proposer reacts to one answer of the entry point: which operations a round
    of the retry loop rejects, and that it always rejects some. */
module Rounds {
  import opened Primitives
  import opened Lists
  import opened UserOps
  import opened Proposal
  import opened Rejections

  /** What the entry point says about a candidate bundle. A failure comes with a message that
      starts with a four-character code, a post-operation revert with the positions whose
      re-check failed, a plain revert by the hashes the submission proxy blames, if there
      is a proxy. */
  datatype Answer =
    | Success
    | FailedOp(index: nat, message: string)
    | SignatureValidationFailed(aggregator: Address)
    | PostOpRevert(flagged: set<nat>)
    | Revert(blamed: Option<seq<Hash>>)
    | CallError

  /** A round either leaves a proposal to try again or gives up, with an error or because it
      panics. */
  datatype Outcome = Retry(context: Context) | Failed

  // ---------------------------------------------------------------- rejecting by position

  predicate SignOk(gs: seq<Group>, key: Address, sign: Signer) {
    var k := Find(gs, key);
    key == ZERO || k == |gs| || sign(key, gs[k].ops)
  }

  /** Rejects one operation and aggregates what is left of its group again. */
  function RejectAndSign(c: Context, i: nat, amendment: bool, sign: Signer): (r: Context)
    requires i < |Flat(c.groups)|
  {
    Resign(RejectIndex(c, i, amendment), KeyOf(Flat(c.groups)[i]), sign)
  }

  function RejectAll(c: Context): (r: Context)
    decreases |Flat(c.groups)|
  {
    if Flat(c.groups) == [] then c
    else
      TakeOutFlat(c.groups, 0);
      RejectAll(RejectIndex(c, 0, true))
  }

  function IndexOf(ops: seq<Op>, hash: Hash): (i: nat)
    ensures i <= |ops|
    ensures i < |ops| ==> ops[i].hash == hash
    ensures forall j | 0 <= j < i :: ops[j].hash != hash
  {
    if ops == [] || ops[0].hash == hash then 0 else 1 + IndexOf(ops[1..], hash)
  }

  /** Rejects the blamed hashes that are present, in the order they are blamed. */
  function RejectHashes(c: Context, hashes: seq<Hash>, sign: Signer): (r: Context)
    decreases |hashes|
  {
    if hashes == [] then c
    else
      var i := IndexOf(Flat(c.groups), hashes[0]);
      RejectHashes(if i < |Flat(c.groups)| then RejectAndSign(c, i, false, sign) else c, hashes[1..], sign)
  }

  /** From the last listed position to the first. */
  function Descend(c: Context, positions: seq<nat>, sign: Signer): (r: Outcome)
    decreases |positions|
  {
    if positions == [] then Retry(c)
    else
      var n := |positions| - 1;
      var i := positions[n];
      if i >= |Flat(c.groups)| then Failed else Descend(RejectAndSign(c, i, true, sign), positions[..n], sign)
  }

  /** From the first listed position to the last. */
  function Ascend(c: Context, positions: seq<nat>, sign: Signer): (r: Outcome)
    decreases |positions|
  {
    if positions == [] then Retry(c)
    else if positions[0] >= |Flat(c.groups)| then Failed
    else Ascend(RejectAndSign(c, positions[0], false, sign), positions[1..], sign)
  }

  // ---------------------------------------------------------------- post-operation reverts

  function Range(lo: nat, hi: nat): (r: seq<nat>)
    decreases hi - lo
  {
    if lo >= hi then [] else [lo] + Range(lo + 1, hi)
  }

  function FlaggedIn(lo: nat, hi: nat, flagged: set<nat>): (r: seq<nat>)
    decreases hi - lo
  {
    if lo >= hi then [] else (if lo in flagged then [lo] else []) + FlaggedIn(lo + 1, hi, flagged)
  }

  /** Operations outside aggregators are re-checked one by one, an aggregated group as a
      whole: its first position stands for all of it. */
  function GroupPositions(g: Group, start: nat, flagged: set<nat>): (r: seq<nat>) {
    var end := start + |g.ops|;
    if g.key == ZERO then FlaggedIn(start, end, flagged) else if start in flagged then Range(start, end) else []
  }

  function PostOpPositions(gs: seq<Group>, start: nat, flagged: set<nat>): (r: seq<nat>) {
    if gs == [] then []
    else GroupPositions(gs[0], start, flagged) + PostOpPositions(gs[1..], start + |gs[0].ops|, flagged)
  }

  /** When no offender can be identified, everything goes. */
  function PostOpRejections(gs: seq<Group>, flagged: set<nat>): (r: seq<nat>) {
    var found := PostOpPositions(gs, 0, flagged);
    if found == [] then Range(0, |Flat(gs)|) else found
  }

  // ---------------------------------------------------------------- one round

  function IsStaked(info: Option<EntityInfo>): bool {
    info.Some? && info.value.isStaked
  }

  /** Reading the code of a message that is too short for one panics. */
  function ProcessFailedOp(c: Context, i: nat, message: string, sign: Signer): (r: Outcome) {
    if i >= |Flat(c.groups)| || |message| < 4 then Failed
    else
      var op, code := Flat(c.groups)[i], message[..4];
      if code in {"AA13", "AA14", "AA15"} then
        if op.factory.None? then Failed
        else Retry(RejectEntity(c, Entity(Factory, op.factory.value), IsStaked(op.infos.factory)))
      else if code in {"AA30", "AA31", "AA33", "AA34"} then
        if op.paymaster.None? then Failed
        else Retry(RejectEntity(c, Entity(Paymaster, op.paymaster.value), IsStaked(op.infos.paymaster)))
      else Retry(RejectAndSign(c, i, true, sign))
  }

  function ProcessRevert(c: Context, blamed: Option<seq<Hash>>, sign: Signer): (r: Context) {
    if blamed.None? then RejectAll(c)
    else
      var c' := RejectHashes(c, blamed.value, sign);
      if c'.rejected == c.rejected then RejectAll(c') else c'
  }

  function React(c: Context, answer: Answer, sign: Signer): (r: Outcome)
    requires !answer.Success?
  {
    match answer
    case FailedOp(index, message) => ProcessFailedOp(c, index, message, sign)
    case SignatureValidationFailed(aggregator) => Retry(RejectEntity(c, Entity(Aggregator, aggregator), true))
    case PostOpRevert(flagged) => Descend(c, PostOpRejections(c.groups, flagged), sign)
    case Revert(blamed) => Retry(ProcessRevert(c, blamed, sign))
    case CallError => Failed
  }

  // ---------------------------------------------------------------- how much a rejection removes

  lemma {:induction false} SelectedMember(ops: seq<Op>, entity: Entity, i: nat)
    requires i < |ops| && Selects(entity, ops[i])
    ensures |Unselected(ops, entity)| < |ops|
    decreases |ops|
  {
    SelectedSplitsLength(ops[1..], entity);
    if !Selects(entity, ops[0]) { SelectedMember(ops[1..], entity, i - 1); }
  }

  lemma {:induction false} NoneSelected(ops: seq<Op>, entity: Entity)
    requires forall i | 0 <= i < |ops| :: !Selects(entity, ops[i])
    ensures Selected(ops, entity) == [] && Unselected(ops, entity) == ops
    decreases |ops|
  {
    if ops != [] { NoneSelected(ops[1..], entity); }
  }

  /** Every operation of the group found under an aggregator names that aggregator. */
  lemma {:induction false} GroupInFlat(gs: seq<Group>, k: nat) returns (i: nat)
    requires WellFormed(gs) && k < |gs|
    ensures GroupOk(gs[k]) && i < |Flat(gs)| && Flat(gs)[i] == gs[k].ops[0]
    decreases k
  {
    if k == 0 {
      i := 0;
    } else {
      i := GroupInFlat(gs[1..], k - 1);
      i := i + |gs[0].ops|;
    }
  }

  lemma ResignEffect(c: Context, key: Address, sign: Signer)
    requires Ok(c)
    ensures SignOk(c.groups, key, sign) ==> Flat(Resign(c, key, sign).groups) == Flat(c.groups)
    ensures !SignOk(c.groups, key, sign) ==> |Flat(Resign(c, key, sign).groups)| < |Flat(c.groups)|
  {
    var k := Find(c.groups, key);
    if SignOk(c.groups, key, sign) {
      if key != ZERO && k < |c.groups| { SignedGroups(c.groups, k, Signed(c.groups[k].ops)); }
    } else {
      FilterRejectKeeps(c, Entity(Aggregator, key), true);
      var i := GroupInFlat(c.groups, k);
      SelectedMember(Flat(c.groups), Entity(Aggregator, key), i);
    }
  }

  /** One operation goes; more go exactly when its group cannot be aggregated again. */
  lemma {:induction false} RejectAndSignEffect(c: Context, i: nat, amendment: bool, sign: Signer)
    requires Ok(c) && i < |Flat(c.groups)|
    ensures Rejects(c, RejectAndSign(c, i, amendment, sign))
    ensures var ok := SignOk(TakeOut(c.groups, i), KeyOf(Flat(c.groups)[i]), sign);
            && (ok ==> Flat(RejectAndSign(c, i, amendment, sign).groups) == RemoveAt(Flat(c.groups), i))
            && (!ok ==> |Flat(RejectAndSign(c, i, amendment, sign).groups)| < |Flat(c.groups)| - 1)
  {
    var c' := RejectIndex(c, i, amendment);
    var key := KeyOf(Flat(c.groups)[i]);
    RejectIndexKeeps(c, i, amendment);
    ResignKeeps(c', key, sign);
    RejectsTrans(c, c', Resign(c', key, sign));
    ResignEffect(c', key, sign);
  }

  lemma {:induction false} RejectAllKeeps(c: Context)
    requires Ok(c)
    ensures Rejects(c, RejectAll(c)) && RejectAll(c).groups == []
    decreases |Flat(c.groups)|
  {
    if Flat(c.groups) == [] {
      RejectsRefl(c);
      assert c.groups == [];
    } else {
      RejectIndexKeeps(c, 0, true);
      RejectAllKeeps(RejectIndex(c, 0, true));
      RejectsTrans(c, RejectIndex(c, 0, true), RejectAll(c));
    }
  }

  /** The list of rejected operations grows exactly when operations leave. */
  lemma RejectedGrows(c: Context, c': Context)
    requires Rejects(c, c')
    ensures |c'.rejected| > |c.rejected| ==> |Flat(c'.groups)| < |Flat(c.groups)|
  {
    if |c'.rejected| > |c.rejected| {
      var op := c'.rejected[|c.rejected|].op;
      assert c'.rejected[..|c.rejected| + 1] == c.rejected + [c'.rejected[|c.rejected|]];
      RejectedPrefix(c'.rejected, |c.rejected| + 1, op);
      assert (c.rejected + [c'.rejected[|c.rejected|]])[..|c.rejected|] == c.rejected;
      CountConcat(RejectedOps(c.rejected), [op], op);
      assert Tally(c', op) == Tally(c, op);
      ShrinksFlat(c'.groups, c.groups);
      SubseqShorter(Flat(c'.groups), Flat(c.groups));
    }
  }

  lemma {:induction false} RejectedPrefix(rs: seq<Rejection>, n: nat, op: Op)
    requires n <= |rs|
    ensures Count(RejectedOps(rs[..n]), op) <= Count(RejectedOps(rs), op)
    decreases |rs|
  {
    if n == |rs| {
      assert rs[..n] == rs;
    } else {
      var m := |rs| - 1;
      RejectedPrefix(rs[..m], n, op);
      assert rs[..m][..n] == rs[..n];
      CountConcat(RejectedOps(rs[..m]), [rs[m].op], op);
    }
  }

  lemma {:induction false} SubseqShorter<T>(xs: seq<T>, ys: seq<T>)
    requires Subseq(xs, ys)
    ensures |xs| <= |ys| && (|xs| == |ys| ==> xs == ys)
    decreases |ys|
  {
    if xs != [] {
      if xs[0] == ys[0] && Subseq(xs[1..], ys[1..]) {
        SubseqShorter(xs[1..], ys[1..]);
      } else {
        SubseqShorter(xs, ys[1..]);
      }
    }
  }

  lemma {:induction false} RejectHashesKeeps(c: Context, hashes: seq<Hash>, sign: Signer)
    requires Ok(c)
    ensures Rejects(c, RejectHashes(c, hashes, sign))
    decreases |hashes|
  {
    if hashes == [] {
      RejectsRefl(c);
    } else {
      var i := IndexOf(Flat(c.groups), hashes[0]);
      if i < |Flat(c.groups)| {
        var c' := RejectAndSign(c, i, false, sign);
        RejectAndSignEffect(c, i, false, sign);
        RejectHashesKeeps(c', hashes[1..], sign);
        RejectsTrans(c, c', RejectHashes(c, hashes, sign));
      } else {
        RejectHashesKeeps(c, hashes[1..], sign);
      }
    }
  }

  lemma {:induction false} DescendKeeps(c: Context, positions: seq<nat>, sign: Signer)
    requires Ok(c)
    ensures var r := Descend(c, positions, sign);
            r.Retry? ==> Rejects(c, r.context) && |Flat(r.context.groups)| + |positions| <= |Flat(c.groups)|
    decreases |positions|
  {
    if positions == [] {
      RejectsRefl(c);
    } else {
      var n := |positions| - 1;
      if positions[n] < |Flat(c.groups)| {
        var c' := RejectAndSign(c, positions[n], true, sign);
        RejectAndSignEffect(c, positions[n], true, sign);
        DescendKeeps(c', positions[..n], sign);
        var r := Descend(c, positions, sign);
        if r.Retry? { RejectsTrans(c, c', r.context); }
      }
    }
  }

  // ---------------------------------------------------------------- the round as a whole

  predicate Present(ops: seq<Op>, aggregator: Address) {
    exists i :: 0 <= i < |ops| && ops[i].aggregator == Some(aggregator)
  }

  lemma PostOpNonEmpty(gs: seq<Group>, flagged: set<nat>)
    requires Flat(gs) != []
    ensures PostOpRejections(gs, flagged) != []
  {
  }

  lemma ProcessRevertEffect(c: Context, blamed: Option<seq<Hash>>, sign: Signer)
    requires Ok(c) && c.groups != []
    ensures Rejects(c, ProcessRevert(c, blamed, sign))
    ensures |Flat(ProcessRevert(c, blamed, sign).groups)| < |Flat(c.groups)|
  {
    RejectAllKeeps(c);
    if blamed.Some? {
      var c' := RejectHashes(c, blamed.value, sign);
      RejectHashesKeeps(c, blamed.value, sign);
      if c'.rejected == c.rejected {
        RejectAllKeeps(c');
        RejectsTrans(c, c', RejectAll(c'));
      } else {
        RejectedGrows(c, c');
      }
    }
  }

  lemma {:induction false} ProcessFailedOpEffect(c: Context, i: nat, message: string, sign: Signer)
    requires Ok(c)
    ensures var r := ProcessFailedOp(c, i, message, sign);
            r.Retry? ==> Rejects(c, r.context) && |Flat(r.context.groups)| < |Flat(c.groups)|
  {
    if i < |Flat(c.groups)| && |message| >= 4 {
      var op, code := Flat(c.groups)[i], message[..4];
      if code in {"AA13", "AA14", "AA15"} {
        if op.factory.Some? { RejectEntityEffect(c, Entity(Factory, op.factory.value), IsStaked(op.infos.factory), i); }
      } else if code in {"AA30", "AA31", "AA33", "AA34"} {
        if op.paymaster.Some? {
          RejectEntityEffect(c, Entity(Paymaster, op.paymaster.value), IsStaked(op.infos.paymaster), i);
        }
      } else {
        RejectAndSignEffect(c, i, true, sign);
      }
    }
  }

  lemma {:induction false} RejectEntityEffect(c: Context, entity: Entity, isStaked: bool, i: nat)
    requires Ok(c) && i < |Flat(c.groups)| && Selects(entity, Flat(c.groups)[i])
    ensures var c' := RejectEntity(c, entity, isStaked);
            Rejects(c, c') && |Flat(c'.groups)| < |Flat(c.groups)|
  {
    RejectEntityKeeps(c, entity, isStaked);
    SelectedMember(Flat(c.groups), entity, i);
  }

  /** A round that is to be retried has made the bundle smaller, with one exception: the
      entry point blames an aggregator that no operation of the bundle names. */
  lemma {:induction false} RoundShrinks(c: Context, answer: Answer, sign: Signer)
    requires Ok(c) && c.groups != [] && !answer.Success?
    requires React(c, answer, sign).Retry?
    ensures var c' := React(c, answer, sign).context;
            && Rejects(c, c')
            && (|Flat(c'.groups)| < |Flat(c.groups)| <==>
                !(answer.SignatureValidationFailed? && !Present(Flat(c.groups), answer.aggregator)))
  {
    var ops := Flat(c.groups);
    match answer
    case FailedOp(index, message) => ProcessFailedOpEffect(c, index, message, sign);
    case SignatureValidationFailed(aggregator) =>
      var entity := Entity(Aggregator, aggregator);
      RejectEntityKeeps(c, entity, true);
      if i :| 0 <= i < |ops| && ops[i].aggregator == Some(aggregator) {
        RejectEntityEffect(c, entity, true, i);
      } else {
        NoneSelected(ops, entity);
      }
    case PostOpRevert(flagged) =>
      PostOpNonEmpty(c.groups, flagged);
      DescendKeeps(c, PostOpRejections(c.groups, flagged), sign);
    case Revert(blamed) => ProcessRevertEffect(c, blamed, sign);
  }

  /** In the exceptional case the bundle comes back unchanged, so the same answer would be
      given for ever. */
  lemma AbsentAggregatorStalls(c: Context, aggregator: Address, sign: Signer)
    requires Ok(c) && !Present(Flat(c.groups), aggregator)
    ensures React(c, SignatureValidationFailed(aggregator), sign).context.groups == c.groups
  {
    PurgeNothing(c.groups, Entity(Aggregator, aggregator));
    NoneSelected(Flat(c.groups), Entity(Aggregator, aggregator));
  }

  lemma {:induction false} PurgeNothing(gs: seq<Group>, entity: Entity)
    requires forall i | 0 <= i < |Flat(gs)| :: !Selects(entity, Flat(gs)[i])
    ensures Purge(gs, entity) == gs
    decreases |gs|
  {
    if gs != [] {
      forall i | 0 <= i < |gs[0].ops| ensures !Selects(entity, gs[0].ops[i]) {
        assert Flat(gs)[i] == gs[0].ops[i];
      }
      forall i | 0 <= i < |Flat(gs[1..])| ensures !Selects(entity, Flat(gs[1..])[i]) {
        assert Flat(gs)[|gs[0].ops| + i] == Flat(gs[1..])[i];
      }
      NoneSelected(gs[0].ops, entity);
      PurgeNothing(gs[1..], entity);
    }
  }
}
