/** Which rejections amend a paymaster's count of operations seen, and by how much: every
    operation that goes counts, except those the paymaster itself, a blamed hash or an unmet
    condition is the reason for. */
module Amending {
  import opened Primitives
  import opened Lists
  import opened UserOps
  import opened Proposal
  import opened Rejections
  import opened Rounds

  /** How many of the operations a paymaster pays for. */
  function PaidBy(ops: seq<Op>, a: Address): nat {
    if ops == [] then 0 else (if ops[0].paymaster == Some(a) then 1 else 0) + PaidBy(ops[1..], a)
  }

  /** How many that the paymaster pays for have left. */
  function Gone(c: Context, c': Context, a: Address): int {
    PaidBy(Flat(c.groups), a) - PaidBy(Flat(c'.groups), a)
  }

  /** How many amendments of the paymaster were made. */
  function Amended(c: Context, c': Context, a: Address): int {
    Amendments(c'.rejected, a) - Amendments(c.rejected, a)
  }

  lemma {:induction false} PaidByRemoveAt(ops: seq<Op>, i: nat, a: Address)
    requires i < |ops|
    ensures PaidBy(ops, a) == PaidBy(RemoveAt(ops, i), a) + if ops[i].paymaster == Some(a) then 1 else 0
    decreases i
  {
    if i == 0 {
      assert RemoveAt(ops, 0) == ops[1..];
    } else {
      PaidByRemoveAt(ops[1..], i - 1, a);
      assert RemoveAt(ops, i)[1..] == RemoveAt(ops[1..], i - 1);
    }
  }

  lemma {:induction false} PaidBySelected(ops: seq<Op>, entity: Entity, a: Address)
    ensures PaidBy(ops, a) == PaidBy(Selected(ops, entity), a) + PaidBy(Unselected(ops, entity), a)
    decreases |ops|
  {
    if ops != [] {
      var op, rest := ops[0], ops[1..];
      PaidBySelected(rest, entity, a);
      PaidByCons(op, Selected(rest, entity), a);
      PaidByCons(op, Unselected(rest, entity), a);
    }
  }

  lemma PaidByCons(op: Op, ops: seq<Op>, a: Address)
    ensures PaidBy([op] + ops, a) == (if op.paymaster == Some(a) then 1 else 0) + PaidBy(ops, a)
    ensures [] + ops == ops
  {
    assert ([op] + ops)[1..] == ops;
  }

  lemma AmendmentsAppend(rs: seq<Rejection>, r: Rejection, a: Address)
    ensures Amendments(rs + [r], a) == Amendments(rs, a) + if r.amended == Some(a) then 1 else 0
  {
    assert (rs + [r])[..|rs|] == rs;
  }

  // ---------------------------------------------------------------- rejections

  lemma RejectAmends(c: Context, op: Op, amendment: bool, a: Address)
    ensures Amended(c, Reject(c, op, amendment), a) == if amendment && op.paymaster == Some(a) then 1 else 0
  {
    AmendmentsAppend(c.rejected, Rejection(op, if amendment then op.paymaster else None), a);
  }

  lemma {:induction false} RejectManyAmends(c: Context, ops: seq<Op>, amendment: bool, a: Address)
    ensures Amended(c, RejectMany(c, ops, amendment), a) == if amendment then PaidBy(ops, a) else 0
    decreases |ops|
  {
    if ops != [] {
      RejectAmends(c, ops[0], amendment, a);
      RejectManyAmends(Reject(c, ops[0], amendment), ops[1..], amendment, a);
    }
  }

  /** Rejecting what an entity is responsible for amends all of it, or nothing. */
  lemma FilterRejectAmends(c: Context, entity: Entity, amendment: bool, a: Address)
    ensures var r := FilterReject(c, entity, amendment);
            && Gone(c, r, a) == PaidBy(Selected(Flat(c.groups), entity), a)
            && Amended(c, r, a) == if amendment then Gone(c, r, a) else 0
  {
    RejectManyAmends(c, Selected(Flat(c.groups), entity), amendment, a);
    PurgeFlat(c.groups, entity);
    PaidBySelected(Flat(c.groups), entity, a);
  }

  /** A rejected factory, sender or aggregator amends the paymaster of every operation that goes
      with it; a rejected paymaster amends nobody. */
  lemma RejectEntityAmends(c: Context, entity: Entity, isStaked: bool, a: Address)
    ensures var r := RejectEntity(c, entity, isStaked);
            && Gone(c, r, a) == PaidBy(Selected(Flat(c.groups), entity), a)
            && Amended(c, r, a) == if entity.kind == Paymaster then 0 else Gone(c, r, a)
  {
    FilterRejectAmends(c, entity, entity.kind != Paymaster, a);
  }

  lemma RejectIndexAmends(c: Context, i: nat, amendment: bool, a: Address)
    requires i < |Flat(c.groups)|
    ensures var r := RejectIndex(c, i, amendment);
            && Gone(c, r, a) == (if Flat(c.groups)[i].paymaster == Some(a) then 1 else 0)
            && Amended(c, r, a) == if amendment then Gone(c, r, a) else 0
  {
    RejectAmends(c, Flat(c.groups)[i], amendment, a);
    TakeOutFlat(c.groups, i);
    PaidByRemoveAt(Flat(c.groups), i, a);
  }

  /** A group that cannot be signed again amends all its paymasters. */
  lemma ResignAmends(c: Context, key: Address, sign: Signer, a: Address)
    ensures Amended(c, Resign(c, key, sign), a) == Gone(c, Resign(c, key, sign), a)
  {
    var k := Find(c.groups, key);
    if key != ZERO && k < |c.groups| {
      if sign(key, c.groups[k].ops) {
        SignedGroups(c.groups, k, Signed(c.groups[k].ops));
      } else {
        FilterRejectAmends(c, Entity(Aggregator, key), true, a);
      }
    }
  }

  /** Without an amendment of its own, the operation rejected is the only one not counted. */
  lemma RejectAndSignAmends(c: Context, i: nat, amendment: bool, sign: Signer, a: Address)
    requires i < |Flat(c.groups)|
    ensures var r := RejectAndSign(c, i, amendment, sign);
            Amended(c, r, a) + (if !amendment && Flat(c.groups)[i].paymaster == Some(a) then 1 else 0) == Gone(c, r, a)
  {
    RejectIndexAmends(c, i, amendment, a);
    ResignAmends(RejectIndex(c, i, amendment), KeyOf(Flat(c.groups)[i]), sign, a);
  }

  lemma {:induction false} RejectAllAmends(c: Context, a: Address)
    ensures Amended(c, RejectAll(c), a) == Gone(c, RejectAll(c), a)
    decreases |Flat(c.groups)|
  {
    if Flat(c.groups) != [] {
      TakeOutFlat(c.groups, 0);
      RejectIndexAmends(c, 0, true, a);
      RejectAllAmends(RejectIndex(c, 0, true), a);
    }
  }

  lemma {:induction false} DescendAmends(c: Context, positions: seq<nat>, sign: Signer, a: Address)
    ensures var r := Descend(c, positions, sign); r.Retry? ==> Amended(c, r.context, a) == Gone(c, r.context, a)
    decreases |positions|
  {
    if positions != [] {
      var n := |positions| - 1;
      if positions[n] < |Flat(c.groups)| {
        RejectAndSignAmends(c, positions[n], true, sign, a);
        DescendAmends(RejectAndSign(c, positions[n], true, sign), positions[..n], sign, a);
      }
    }
  }

  // ---------------------------------------------------------------- hashes and conditions

  /** The operations that go because their hash is blamed. */
  function ByHash(c: Context, hashes: seq<Hash>, sign: Signer): seq<Op>
    decreases |hashes|
  {
    if hashes == [] then []
    else
      var i := IndexOf(Flat(c.groups), hashes[0]);
      if i == |Flat(c.groups)| then ByHash(c, hashes[1..], sign)
      else [Flat(c.groups)[i]] + ByHash(RejectAndSign(c, i, false, sign), hashes[1..], sign)
  }

  /** Only operations of groups that cannot be signed again are amended. */
  lemma {:induction false} RejectHashesAmends(c: Context, hashes: seq<Hash>, sign: Signer, a: Address)
    ensures var r := RejectHashes(c, hashes, sign);
            Amended(c, r, a) + PaidBy(ByHash(c, hashes, sign), a) == Gone(c, r, a)
    decreases |hashes|
  {
    if hashes != [] {
      var i := IndexOf(Flat(c.groups), hashes[0]);
      if i < |Flat(c.groups)| {
        var c' := RejectAndSign(c, i, false, sign);
        RejectAndSignAmends(c, i, false, sign, a);
        RejectHashesAmends(c', hashes[1..], sign, a);
        PaidByCons(Flat(c.groups)[i], ByHash(c', hashes[1..], sign), a);
      } else {
        RejectHashesAmends(c, hashes[1..], sign, a);
      }
    }
  }

  /** The operations that go because of their position, rejecting upwards. */
  function ByPosition(c: Context, positions: seq<nat>, sign: Signer): seq<Op>
    decreases |positions|
  {
    if positions == [] || positions[0] >= |Flat(c.groups)| then []
    else
      [Flat(c.groups)[positions[0]]] + ByPosition(RejectAndSign(c, positions[0], false, sign), positions[1..], sign)
  }

  lemma {:induction false} AscendAmends(c: Context, positions: seq<nat>, sign: Signer, a: Address)
    ensures var r := Ascend(c, positions, sign);
            r.Retry? ==> Amended(c, r.context, a) + PaidBy(ByPosition(c, positions, sign), a) == Gone(c, r.context, a)
    decreases |positions|
  {
    if positions != [] && positions[0] < |Flat(c.groups)| {
      var c' := RejectAndSign(c, positions[0], false, sign);
      RejectAndSignAmends(c, positions[0], false, sign, a);
      AscendAmends(c', positions[1..], sign, a);
      PaidByCons(Flat(c.groups)[positions[0]], ByPosition(c', positions[1..], sign), a);
    }
  }

  // ---------------------------------------------------------------- a round

  predicate BlamesPaymaster(answer: Answer) {
    answer.FailedOp? && |answer.message| >= 4 && answer.message[..4] in {"AA30", "AA31", "AA33", "AA34"}
  }

  /** The operations a round does not amend although they go. */
  function Spared(c: Context, answer: Answer, sign: Signer, a: Address): int
    requires !answer.Success? && React(c, answer, sign).Retry?
  {
    if BlamesPaymaster(answer) then Gone(c, React(c, answer, sign).context, a)
    else if answer.Revert? && answer.blamed.Some? then PaidBy(ByHash(c, answer.blamed.value, sign), a)
    else 0
  }

  /** A round amends the paymaster of every operation that goes, except where it is a paymaster
      that is blamed, and except the operations whose own hash is. */
  lemma ReactAmends(c: Context, answer: Answer, sign: Signer, a: Address)
    requires !answer.Success? && React(c, answer, sign).Retry?
    ensures var c' := React(c, answer, sign).context;
            Amended(c, c', a) + Spared(c, answer, sign, a) == Gone(c, c', a)
  {
    match answer
    case FailedOp(i, message) =>
      var op := Flat(c.groups)[i];
      if message[..4] in {"AA13", "AA14", "AA15"} {
        RejectEntityAmends(c, Entity(Factory, op.factory.value), IsStaked(op.infos.factory), a);
      } else if BlamesPaymaster(answer) {
        RejectEntityAmends(c, Entity(Paymaster, op.paymaster.value), IsStaked(op.infos.paymaster), a);
      } else {
        RejectAndSignAmends(c, i, true, sign, a);
      }
    case SignatureValidationFailed(aggregator) => RejectEntityAmends(c, Entity(Aggregator, aggregator), true, a);
    case PostOpRevert(flagged) => DescendAmends(c, PostOpRejections(c.groups, flagged), sign, a);
    case Revert(blamed) => RevertAmends(c, blamed, sign, a);
  }

  lemma RevertAmends(c: Context, blamed: Option<seq<Hash>>, sign: Signer, a: Address)
    ensures var r := ProcessRevert(c, blamed, sign);
            Amended(c, r, a) + (if blamed.Some? then PaidBy(ByHash(c, blamed.value, sign), a) else 0) == Gone(c, r, a)
  {
    if blamed.None? {
      RejectAllAmends(c, a);
    } else {
      var c' := RejectHashes(c, blamed.value, sign);
      RejectHashesAmends(c, blamed.value, sign, a);
      RejectAllAmends(c', a);
    }
  }

  // ---------------------------------------------------------------- the updates

  /** The update of an address after so many amendments: an invalidation stays, a decrement counts
      up, and there is one from the first amendment on. */
  predicate Counted(u: map<Address, EntityUpdate>, u': map<Address, EntityUpdate>, a: Address, n: nat) {
    if n == 0 || (a in u && u[a].value.None?) then
      (a in u <==> a in u') && (a in u ==> u'[a] == u[a])
    else
      && a in u'
      && u'[a] == if a in u then u[a].(value := Some(u[a].value.value + n))
                  else EntityUpdate(Entity(Paymaster, a), PaymasterOpsSeenDecrement, Some(n))
  }

  lemma {:induction false} RejectManyUpdates(c: Context, ops: seq<Op>, amendment: bool, a: Address)
    ensures Counted(c.updates, RejectMany(c, ops, amendment).updates, a, if amendment then PaidBy(ops, a) else 0)
    decreases |ops|
  {
    if ops != [] { RejectManyUpdates(Reject(c, ops[0], amendment), ops[1..], amendment, a); }
  }

  /** A rejected entity is invalidated as staked or unstaked; every other address only has its
      operations amended. */
  lemma RejectEntityUpdates(c: Context, entity: Entity, isStaked: bool, a: Address)
    ensures var r, gone := RejectEntity(c, entity, isStaked), Selected(Flat(c.groups), entity);
            if a == entity.address then
              && a in r.updates
              && r.updates[a] ==
                 EntityUpdate(entity, if isStaked then StakedInvalidation else UnstakedInvalidation, None)
            else Counted(c.updates, r.updates, a, if entity.kind == Paymaster then 0 else PaidBy(gone, a))
  {
    RejectManyUpdates(c, Selected(Flat(c.groups), entity), entity.kind != Paymaster, a);
  }

  lemma RejectIndexUpdates(c: Context, i: nat, amendment: bool, a: Address)
    requires i < |Flat(c.groups)|
    ensures Counted(c.updates, RejectIndex(c, i, amendment).updates, a,
                    if amendment && Flat(c.groups)[i].paymaster == Some(a) then 1 else 0)
  {
  }
}
