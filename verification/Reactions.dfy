/** What each answer of the entry point makes of the bundle: which operations go and which stay,
    who is invalidated, and when a round fails. */
module Reactions {
  import opened Primitives
  import opened Lists
  import opened UserOps
  import opened Proposal
  import opened Rejections
  import opened Rounds
  import opened Positions

  // ---------------------------------------------------------------- entities

  /** The operations an entity answers for. */
  predicate AnswersFor(entity: Entity, op: Op) {
    || (entity.kind == Account && op.sender == entity.address)
    || (entity.kind == Paymaster && op.paymaster == Some(entity.address))
    || (entity.kind == Factory && op.factory == Some(entity.address))
    || (entity.kind == Aggregator && op.aggregator == Some(entity.address))
  }

  lemma {:induction false} UnselectedCount(ops: seq<Op>, entity: Entity, x: Op)
    ensures Count(Unselected(ops, entity), x) == if AnswersFor(entity, x) then 0 else Count(ops, x)
    decreases |ops|
  {
    if ops != [] {
      UnselectedCount(ops[1..], entity, x);
      if Selects(entity, ops[0]) {
        assert Unselected(ops, entity) == Unselected(ops[1..], entity);
      } else {
        assert Unselected(ops, entity)[1..] == Unselected(ops[1..], entity);
      }
    }
  }

  /** A rejected entity takes all its operations, no others, and is invalidated. */
  ghost predicate EntityGone(c: Context, c': Context, entity: Entity, isStaked: bool) {
    && (forall x :: Count(Flat(c'.groups), x) == if AnswersFor(entity, x) then 0 else Count(Flat(c.groups), x))
    && entity.address in c'.updates
    && c'.updates[entity.address] ==
       EntityUpdate(entity, if isStaked then StakedInvalidation else UnstakedInvalidation, None)
  }

  lemma RejectEntityExactly(c: Context, entity: Entity, isStaked: bool)
    ensures EntityGone(c, RejectEntity(c, entity, isStaked), entity, isStaked)
  {
    var r := RejectEntity(c, entity, isStaked);
    PurgeFlat(c.groups, entity);
    forall x ensures Count(Flat(r.groups), x) == if AnswersFor(entity, x) then 0 else Count(Flat(c.groups), x) {
      UnselectedCount(Flat(c.groups), entity, x);
    }
  }

  // ---------------------------------------------------------------- one operation

  /** One operation goes, and with it the rest of its group if that cannot be signed again. */
  lemma RejectAndSignExactly(c: Context, i: nat, amendment: bool, sign: Signer, x: Op)
    requires Ok(c) && i < |Flat(c.groups)|
    ensures var op := Flat(c.groups)[i];
            var left := Count(Flat(RejectAndSign(c, i, amendment, sign).groups), x);
            if SignOk(TakeOut(c.groups, i), KeyOf(op), sign) then
              left == Count(Flat(c.groups), x) - if x == op then 1 else 0
            else left == if x.aggregator == Some(KeyOf(op)) then 0 else Count(Flat(c.groups), x)
  {
    var op, c' := Flat(c.groups)[i], RejectIndex(c, i, amendment);
    RejectAndSignEffect(c, i, amendment, sign);
    CountRemoveAt(Flat(c.groups), i, x);
    if !SignOk(TakeOut(c.groups, i), KeyOf(op), sign) {
      RejectIndexKeeps(c, i, amendment);
      PurgeFlat(c'.groups, Entity(Aggregator, KeyOf(op)));
      UnselectedCount(Flat(c'.groups), Entity(Aggregator, KeyOf(op)), x);
    }
  }

  // ---------------------------------------------------------------- failed operations

  const FACTORY_CODES := {"AA13", "AA14", "AA15"}
  const PAYMASTER_CODES := {"AA30", "AA31", "AA33", "AA34"}

  /** A failed operation ends the proposal exactly if it is not in the bundle, its message has no
      code, or the code blames a factory or paymaster it does not have. */
  lemma FailedOpFails(c: Context, i: nat, message: string, sign: Signer)
    ensures ProcessFailedOp(c, i, message, sign).Failed? <==>
            || i >= |Flat(c.groups)| || |message| < 4
            || (message[..4] in FACTORY_CODES && Flat(c.groups)[i].factory.None?)
            || (message[..4] in PAYMASTER_CODES && Flat(c.groups)[i].paymaster.None?)
  {
  }

  /** Otherwise the factory or the paymaster is rejected, or the operation alone. */
  lemma FailedOpExactly(c: Context, i: nat, message: string, sign: Signer)
    requires i < |Flat(c.groups)| && ProcessFailedOp(c, i, message, sign).Retry?
    ensures |message| >= 4
    ensures var op, code := Flat(c.groups)[i], message[..4];
            var c' := ProcessFailedOp(c, i, message, sign).context;
            && (code in FACTORY_CODES ==>
                  && op.factory.Some?
                  && EntityGone(c, c', Entity(Factory, op.factory.value),
                                op.infos.factory.Some? && op.infos.factory.value.isStaked))
            && (code in PAYMASTER_CODES ==>
                  && op.paymaster.Some?
                  && EntityGone(c, c', Entity(Paymaster, op.paymaster.value),
                                op.infos.paymaster.Some? && op.infos.paymaster.value.isStaked))
            && (code !in FACTORY_CODES + PAYMASTER_CODES ==> c' == RejectAndSign(c, i, true, sign))
  {
    var op, code := Flat(c.groups)[i], message[..4];
    if code in FACTORY_CODES {
      RejectEntityExactly(c, Entity(Factory, op.factory.value), IsStaked(op.infos.factory));
    } else if code in PAYMASTER_CODES {
      RejectEntityExactly(c, Entity(Paymaster, op.paymaster.value), IsStaked(op.infos.paymaster));
    }
  }

  // ---------------------------------------------------------------- post-operation reverts

  /** The operation at a position, counted from the start of the groups, is found guilty: by itself
      outside aggregators, and else by the first position of its group. */
  predicate GuiltyAt(gs: seq<Group>, start: nat, p: nat, flagged: set<nat>) {
    gs != [] && start <= p &&
    if p >= start + |gs[0].ops| then GuiltyAt(gs[1..], start + |gs[0].ops|, p, flagged)
    else if gs[0].key == ZERO then p in flagged
    else start in flagged
  }

  lemma {:induction false} FlaggedExactly(lo: nat, hi: nat, flagged: set<nat>, p: nat)
    ensures p in FlaggedIn(lo, hi, flagged) <==> lo <= p < hi && p in flagged
    ensures p in Range(lo, hi) <==> lo <= p < hi
    decreases hi - lo
  {
    if lo < hi { FlaggedExactly(lo + 1, hi, flagged, p); }
  }

  lemma GroupPositionsExactly(g: Group, start: nat, flagged: set<nat>, p: nat)
    ensures p in GroupPositions(g, start, flagged) <==>
            start <= p < start + |g.ops| && if g.key == ZERO then p in flagged else start in flagged
  {
    FlaggedExactly(start, start + |g.ops|, flagged, p);
  }

  lemma {:induction false} PositionsFrom(gs: seq<Group>, start: nat, flagged: set<nat>, p: nat)
    requires p in PostOpPositions(gs, start, flagged)
    ensures p >= start
    decreases |gs|
  {
    GroupPositionsExactly(gs[0], start, flagged, p);
    if p !in GroupPositions(gs[0], start, flagged) {
      PositionsFrom(gs[1..], start + |gs[0].ops|, flagged, p);
    }
  }

  lemma PositionsSplit(gs: seq<Group>, start: nat, flagged: set<nat>, p: nat)
    requires gs != []
    ensures p in PostOpPositions(gs, start, flagged) <==>
            if p < start + |gs[0].ops| then p in GroupPositions(gs[0], start, flagged)
            else p in PostOpPositions(gs[1..], start + |gs[0].ops|, flagged)
  {
    var head, tail := GroupPositions(gs[0], start, flagged), PostOpPositions(gs[1..], start + |gs[0].ops|, flagged);
    assert PostOpPositions(gs, start, flagged) == head + tail;
    GroupPositionsExactly(gs[0], start, flagged, p);
    if p in tail { PositionsFrom(gs[1..], start + |gs[0].ops|, flagged, p); }
  }

  lemma {:induction false} PositionsExactly(gs: seq<Group>, start: nat, flagged: set<nat>, p: nat)
    ensures p in PostOpPositions(gs, start, flagged) <==> GuiltyAt(gs, start, p, flagged)
    decreases |gs|
  {
    if gs != [] {
      PositionsSplit(gs, start, flagged, p);
      GroupPositionsExactly(gs[0], start, flagged, p);
      PositionsExactly(gs[1..], start + |gs[0].ops|, flagged, p);
    }
  }

  predicate AnyGuilty(gs: seq<Group>, flagged: set<nat>) {
    exists p: nat | p < |Flat(gs)| :: GuiltyAt(gs, 0, p, flagged)
  }

  lemma AnyGuiltyListed(gs: seq<Group>, flagged: set<nat>)
    ensures PostOpPositions(gs, 0, flagged) == [] <==> !AnyGuilty(gs, flagged)
  {
    var found := PostOpPositions(gs, 0, flagged);
    if found != [] {
      PositionsExactly(gs, 0, flagged, found[0]);
      PostOpPositionsAscending(gs, 0, flagged);
    }
    if p: nat :| p < |Flat(gs)| && GuiltyAt(gs, 0, p, flagged) { PositionsExactly(gs, 0, flagged, p); }
  }

  /** If anybody is guilty, exactly the guilty are to be rejected, and otherwise everybody. */
  lemma GuiltyExactly(gs: seq<Group>, flagged: set<nat>, p: nat)
    requires p < |Flat(gs)|
    ensures p in PostOpRejections(gs, flagged) <==> GuiltyAt(gs, 0, p, flagged) || !AnyGuilty(gs, flagged)
  {
    AnyGuiltyListed(gs, flagged);
    PositionsExactly(gs, 0, flagged, p);
    if !AnyGuilty(gs, flagged) { FlaggedExactly(0, |Flat(gs)|, flagged, p); }
  }

  // ---------------------------------------------------------------- reverts

  predicate HashPresent(ops: seq<Op>, hash: Hash) {
    exists i | 0 <= i < |ops| :: ops[i].hash == hash
  }

  /** An operation whose hash is not blamed stays, unless its group cannot be signed again. */
  lemma {:induction false} HashesSpare(c: Context, hashes: seq<Hash>, sign: Signer, x: Op)
    requires Ok(c) && x.hash !in hashes && (KeyOf(x) == ZERO || forall ops :: sign(KeyOf(x), ops))
    ensures Count(Flat(RejectHashes(c, hashes, sign).groups), x) == Count(Flat(c.groups), x)
    decreases |hashes|
  {
    if hashes != [] {
      var i := IndexOf(Flat(c.groups), hashes[0]);
      if i < |Flat(c.groups)| {
        RejectAndSignEffect(c, i, false, sign);
        SparedBySigning(c, i, sign, x);
        HashesSpare(RejectAndSign(c, i, false, sign), hashes[1..], sign, x);
      } else {
        HashesSpare(c, hashes[1..], sign, x);
      }
    }
  }

  lemma SparedBySigning(c: Context, i: nat, sign: Signer, x: Op)
    requires Ok(c) && i < |Flat(c.groups)| && Flat(c.groups)[i] != x
    requires KeyOf(x) == ZERO || forall ops :: sign(KeyOf(x), ops)
    ensures Count(Flat(RejectAndSign(c, i, false, sign).groups), x) == Count(Flat(c.groups), x)
  {
    RejectAndSignExactly(c, i, false, sign, x);
    if x.aggregator == Some(KeyOf(Flat(c.groups)[i])) { assert KeyOf(x) == KeyOf(Flat(c.groups)[i]); }
  }

  /** A blamed operation goes, if no other has its hash. */
  lemma {:induction false} HashesGo(c: Context, hashes: seq<Hash>, sign: Signer, x: Op)
    requires Ok(c) && x.hash in hashes && Count(Flat(c.groups), x) <= 1
    requires forall y | y in Flat(c.groups) && y.hash == x.hash :: y == x
    ensures Count(Flat(RejectHashes(c, hashes, sign).groups), x) == 0
    decreases |hashes|
  {
    var i := IndexOf(Flat(c.groups), hashes[0]);
    if i < |Flat(c.groups)| {
      var c' := RejectAndSign(c, i, false, sign);
      RejectAndSignEffect(c, i, false, sign);
      RejectAndSignExactly(c, i, false, sign, x);
      RejectHashesKeeps(c', hashes[1..], sign);
      StillGone(c', RejectHashes(c', hashes[1..], sign), x);
      if x.hash != hashes[0] {
        OthersFewer(c, c', x);
        HashesGo(c', hashes[1..], sign, x);
      }
    } else {
      CountMember(Flat(c.groups), x);
      RejectHashesKeeps(c, hashes[1..], sign);
      StillGone(c, RejectHashes(c, hashes[1..], sign), x);
      if x.hash in hashes[1..] { HashesGo(c, hashes[1..], sign, x); }
    }
  }

  lemma StillGone(c: Context, c': Context, x: Op)
    requires Rejects(c, c')
    ensures Count(Flat(c'.groups), x) <= Count(Flat(c.groups), x)
  {
    ShrinksFlat(c'.groups, c.groups);
    SubseqCount(Flat(c'.groups), Flat(c.groups), x);
  }

  lemma OthersFewer(c: Context, c': Context, x: Op)
    requires Rejects(c, c') && forall y | y in Flat(c.groups) && y.hash == x.hash :: y == x
    ensures forall y | y in Flat(c'.groups) && y.hash == x.hash :: y == x
  {
    ShrinksFlat(c'.groups, c.groups);
    forall y | y in Flat(c'.groups) && y.hash == x.hash ensures y == x {
      SubseqMember(Flat(c'.groups), Flat(c.groups), y);
    }
  }

  lemma {:induction false} NonePresent(c: Context, hashes: seq<Hash>, sign: Signer)
    requires forall h | h in hashes :: !HashPresent(Flat(c.groups), h)
    ensures RejectHashes(c, hashes, sign) == c
    decreases |hashes|
  {
    if hashes != [] {
      assert hashes[0] in hashes;
      NonePresent(c, hashes[1..], sign);
    }
  }

  lemma {:induction false} SomePresent(c: Context, hashes: seq<Hash>, sign: Signer, h: Hash)
    requires Ok(c) && h in hashes && HashPresent(Flat(c.groups), h)
    ensures |RejectHashes(c, hashes, sign).rejected| > |c.rejected|
    decreases |hashes|
  {
    var i := IndexOf(Flat(c.groups), hashes[0]);
    if i < |Flat(c.groups)| {
      var c' := RejectAndSign(c, i, false, sign);
      RejectAndSignEffect(c, i, false, sign);
      RejectIndexKeeps(c, i, false);
      ResignKeeps(RejectIndex(c, i, false), KeyOf(Flat(c.groups)[i]), sign);
      RejectHashesKeeps(c', hashes[1..], sign);
    } else {
      SomePresent(c, hashes[1..], sign, h);
    }
  }

  /** If a proxy blames hashes that are in the bundle, only they are rejected; if it blames none
      of them, or there is no proxy, everything is. */
  lemma RevertExactly(c: Context, blamed: Option<seq<Hash>>, sign: Signer)
    requires Ok(c)
    ensures var r := ProcessRevert(c, blamed, sign);
            if blamed.Some? && exists h | h in blamed.value :: HashPresent(Flat(c.groups), h)
            then r == RejectHashes(c, blamed.value, sign)
            else r.groups == []
  {
    RejectAllKeeps(c);
    if blamed.Some? {
      if h :| h in blamed.value && HashPresent(Flat(c.groups), h) {
        SomePresent(c, blamed.value, sign, h);
      } else {
        NonePresent(c, blamed.value, sign);
      }
    }
  }

  // ---------------------------------------------------------------- a round

  /** A round gives up exactly on a failed call, a failed operation it cannot attribute, or guilty
      positions that run off the end. */
  lemma ReactFails(c: Context, answer: Answer, sign: Signer)
    requires !answer.Success?
    ensures React(c, answer, sign).Failed? <==>
            || answer.CallError?
            || (answer.FailedOp? && ProcessFailedOp(c, answer.index, answer.message, sign).Failed?)
            || (answer.PostOpRevert? && Descend(c, PostOpRejections(c.groups, answer.flagged), sign).Failed?)
  {
  }

  /** An aggregator whose signature is refused goes with all its operations, as if it were staked. */
  lemma SignatureRefused(c: Context, aggregator: Address, sign: Signer)
    ensures var r := React(c, SignatureValidationFailed(aggregator), sign);
            r.Retry? && EntityGone(c, r.context, Entity(Aggregator, aggregator), true)
  {
    RejectEntityExactly(c, Entity(Aggregator, aggregator), true);
  }
}
