/** What every rejection keeps: operations, order, grouping, storage and paymaster accounts. */
module Rejections {
  import opened Primitives
  import opened Lists
  import opened Storage
  import opened UserOps
  import opened Proposal

  function RejectedOps(rs: seq<Rejection>): (r: seq<Op>) {
    if rs == [] then [] else RejectedOps(rs[..|rs| - 1]) + [rs[|rs| - 1].op]
  }

  /** How often an operation is accounted for, included or rejected. */
  function Tally(c: Context, op: Op): nat {
    Count(Flat(c.groups), op) + Count(RejectedOps(c.rejected), op)
  }

  /** Copies of a storage that are still counted although no included operation brings them. */
  function Surplus(c: Context, s: ExpectedStorage): int {
    Count(c.held, s) - Count(Storages(Flat(c.groups)), s)
  }

  /** How many rejected operations amended a paymaster; one rejection amends at most one. */
  function Amendments(rs: seq<Rejection>, a: Address): nat {
    if rs == [] then 0
    else Amendments(rs[..|rs| - 1], a) + if rs[|rs| - 1].amended == Some(a) then 1 else 0
  }

  /** An ops-seen decrement carries exactly the amendments made for its address, an
      invalidation carries no count, and an address without an update was never amended. */
  ghost predicate Accounts(updates: map<Address, EntityUpdate>, rs: seq<Rejection>) {
    && (forall a | a in updates :: updates[a].kind == PaymasterOpsSeenDecrement <==> updates[a].value.Some?)
    && (forall a | a in updates && updates[a].value.Some? :: updates[a].value.value == Amendments(rs, a))
    && (forall a | a !in updates :: Amendments(rs, a) == 0)
  }

  predicate Invalidated(updates: map<Address, EntityUpdate>, a: Address) {
    a in updates && updates[a].kind != PaymasterOpsSeenDecrement
  }

  /** No update disappears and no invalidation is downgraded. */
  ghost predicate Upholds(updates: map<Address, EntityUpdate>, updates': map<Address, EntityUpdate>) {
    && updates.Keys <= updates'.Keys
    && forall a | Invalidated(updates, a) :: Invalidated(updates', a)
  }

  ghost predicate Ok(c: Context) {
    WellFormed(c.groups) && Accounts(c.updates, c.rejected) && forall s :: Surplus(c, s) >= 0
  }

  /** The law of rejection. It is reflexive and transitive, so it holds from the assembled
      proposal to every later one. */
  ghost predicate Rejects(c: Context, c': Context) {
    && Ok(c')
    && (forall op :: Tally(c', op) == Tally(c, op))
    && (forall s :: Surplus(c', s) == Surplus(c, s))
    && Shrinks(c'.groups, c.groups)
    && c.rejected <= c'.rejected
    && Upholds(c.updates, c'.updates)
  }

  lemma RejectsRefl(c: Context)
    requires Ok(c)
    ensures Rejects(c, c)
  {
    ShrinksRefl(c.groups);
  }

  lemma RejectsTrans(c: Context, c': Context, c'': Context)
    requires Rejects(c, c') && Rejects(c', c'')
    ensures Rejects(c, c'')
  {
    ShrinksTrans(c''.groups, c'.groups, c.groups);
  }

  // ---------------------------------------------------------------- bookkeeping of rejections

  lemma {:induction false} AmendKeeps(updates: map<Address, EntityUpdate>, rs: seq<Rejection>, r: Rejection)
    requires Accounts(updates, rs)
    ensures var updates' := if r.amended.Some? then Amend(updates, r.amended.value) else updates;
            Accounts(updates', rs + [r]) && Upholds(updates, updates')
  {
    assert (rs + [r])[..|rs|] == rs;
    forall a ensures Amendments(rs + [r], a) == Amendments(rs, a) + if r.amended == Some(a) then 1 else 0 {
    }
  }

  lemma {:induction false} InvalidateKeeps(updates: map<Address, EntityUpdate>, rs: seq<Rejection>, entity: Entity,
                                           isStaked: bool)
    requires Accounts(updates, rs)
    ensures var updates' := updates[entity.address := Invalidation(entity, isStaked)];
            Accounts(updates', rs) && Upholds(updates, updates')
  {
  }

  lemma UpholdsTrans(u: map<Address, EntityUpdate>, u': map<Address, EntityUpdate>, u'': map<Address, EntityUpdate>)
    requires Upholds(u, u') && Upholds(u', u'')
    ensures Upholds(u, u'')
  {
  }

  lemma {:induction false} RejectManyRecords(c: Context, ops: seq<Op>, amendment: bool)
    ensures var r := RejectMany(c, ops, amendment);
            && r.groups == c.groups
            && c.rejected <= r.rejected
            && RejectedOps(r.rejected) == RejectedOps(c.rejected) + ops
    decreases |ops|
  {
    if ops != [] {
      var one := Reject(c, ops[0], amendment);
      RejectManyRecords(one, ops[1..], amendment);
      assert one.rejected[..|c.rejected|] == c.rejected;
      assert RejectedOps(c.rejected) + ops == RejectedOps(one.rejected) + ops[1..];
    }
  }

  lemma {:induction false} RejectManyAccounts(c: Context, ops: seq<Op>, amendment: bool)
    requires Accounts(c.updates, c.rejected)
    ensures var r := RejectMany(c, ops, amendment);
            Accounts(r.updates, r.rejected) && Upholds(c.updates, r.updates)
    decreases |ops|
  {
    if ops != [] {
      var one := Reject(c, ops[0], amendment);
      AmendKeeps(c.updates, c.rejected, Rejection(ops[0], if amendment then ops[0].paymaster else None));
      RejectManyAccounts(one, ops[1..], amendment);
      UpholdsTrans(c.updates, one.updates, RejectMany(c, ops, amendment).updates);
    }
  }

  /** Each rejected operation takes one copy of its storage out, as long as there is one. */
  lemma {:induction false} RejectManyHeld(c: Context, ops: seq<Op>, amendment: bool, s: ExpectedStorage)
    requires Count(Storages(ops), s) <= Count(c.held, s)
    ensures Count(RejectMany(c, ops, amendment).held, s) == Count(c.held, s) - Count(Storages(ops), s)
    decreases |ops|
  {
    if ops != [] {
      CountRemoveFirst(c.held, ops[0].storage, s);
      CountMember(c.held, s);
      assert Storages(ops)[1..] == Storages(ops[1..]);
      RejectManyHeld(Reject(c, ops[0], amendment), ops[1..], amendment, s);
    }
  }

  lemma {:induction false} SelectedStorages(ops: seq<Op>, entity: Entity, s: ExpectedStorage)
    ensures Count(Storages(ops), s) ==
            Count(Storages(Selected(ops, entity)), s) + Count(Storages(Unselected(ops, entity)), s)
    decreases |ops|
  {
    if ops != [] {
      SelectedStorages(ops[1..], entity, s);
      assert Storages(ops)[1..] == Storages(ops[1..]);
      if Selects(entity, ops[0]) {
        assert Selected(ops, entity)[1..] == Selected(ops[1..], entity);
        assert Unselected(ops, entity) == Unselected(ops[1..], entity);
        assert Storages(Selected(ops, entity))[1..] == Storages(Selected(ops[1..], entity));
      } else {
        assert Unselected(ops, entity)[1..] == Unselected(ops[1..], entity);
        assert Selected(ops, entity) == Selected(ops[1..], entity);
        assert Storages(Unselected(ops, entity))[1..] == Storages(Unselected(ops[1..], entity));
      }
    }
  }

  lemma {:induction false} RemoveAtStorages(ops: seq<Op>, i: nat)
    requires i < |ops|
    ensures |Storages(ops)| == |ops| && Storages(ops)[i] == ops[i].storage
    ensures Storages(RemoveAt(ops, i)) == RemoveAt(Storages(ops), i)
    decreases i
  {
    StoragesLength(ops);
    if i == 0 {
      assert RemoveAt(ops, 0) == ops[1..];
    } else {
      RemoveAtStorages(ops[1..], i - 1);
      assert RemoveAt(ops, i)[1..] == RemoveAt(ops[1..], i - 1);
    }
  }

  lemma {:induction false} StoragesLength(ops: seq<Op>)
    ensures |Storages(ops)| == |ops|
    decreases |ops|
  {
    if ops != [] { StoragesLength(ops[1..]); }
  }

  // ---------------------------------------------------------------- the law, rejection by rejection

  lemma FilterRejectKeeps(c: Context, entity: Entity, amendment: bool)
    requires Ok(c)
    ensures Rejects(c, FilterReject(c, entity, amendment))
    ensures Flat(FilterReject(c, entity, amendment).groups) == Unselected(Flat(c.groups), entity)
  {
    var all := Flat(c.groups);
    var gone := Selected(all, entity);
    var r := FilterReject(c, entity, amendment);
    RejectManyRecords(c, gone, amendment);
    RejectManyAccounts(c, gone, amendment);
    PurgeFlat(c.groups, entity);
    PurgeWellFormed(c.groups, entity);
    forall x ensures Tally(r, x) == Tally(c, x) {
      SelectedSplits(all, entity, x);
      CountConcat(RejectedOps(c.rejected), gone, x);
    }
    forall s ensures Surplus(r, s) == Surplus(c, s) {
      SelectedStorages(all, entity, s);
      assert Surplus(c, s) >= 0;
      RejectManyHeld(c, gone, amendment, s);
    }
  }

  lemma RejectEntityKeeps(c: Context, entity: Entity, isStaked: bool)
    requires Ok(c)
    ensures Rejects(c, RejectEntity(c, entity, isStaked))
    ensures Flat(RejectEntity(c, entity, isStaked).groups) == Unselected(Flat(c.groups), entity)
    ensures Invalidated(RejectEntity(c, entity, isStaked).updates, entity.address)
  {
    FilterRejectKeeps(c, entity, entity.kind != Paymaster);
    var c' := FilterReject(c, entity, entity.kind != Paymaster);
    var r := RejectEntity(c, entity, isStaked);
    InvalidateKeeps(c'.updates, c'.rejected, entity, isStaked);
    UpholdsTrans(c.updates, c'.updates, r.updates);
    assert forall op :: Tally(r, op) == Tally(c', op);
    assert forall s :: Surplus(r, s) == Surplus(c', s);
  }

  lemma RejectIndexKeeps(c: Context, i: nat, amendment: bool)
    requires Ok(c) && i < |Flat(c.groups)|
    ensures Rejects(c, RejectIndex(c, i, amendment))
    ensures Flat(RejectIndex(c, i, amendment).groups) == RemoveAt(Flat(c.groups), i)
  {
    var all := Flat(c.groups);
    var r := RejectIndex(c, i, amendment);
    AmendKeeps(c.updates, c.rejected, Rejection(all[i], if amendment then all[i].paymaster else None));
    TakeOutFlat(c.groups, i);
    TakeOutWellFormed(c.groups, i);
    assert r.rejected[..|c.rejected|] == c.rejected;
    forall x ensures Tally(r, x) == Tally(c, x) {
      TallyStays(all, i, RejectedOps(c.rejected), x);
    }
    assert Surplus(c, all[i].storage) >= 0;
    forall s ensures Surplus(r, s) == Surplus(c, s) {
      SurplusStays(all, c.held, i, s);
    }
  }

  /** An operation that leaves the bundle is counted among the rejected ones. */
  lemma TallyStays(all: seq<Op>, i: nat, rejected: seq<Op>, x: Op)
    requires i < |all|
    ensures Count(RemoveAt(all, i), x) + Count(rejected + [all[i]], x) == Count(all, x) + Count(rejected, x)
  {
    CountRemoveAt(all, i, x);
    CountConcat(rejected, [all[i]], x);
  }

  /** An operation leaves with one copy of its storage. */
  lemma SurplusStays(all: seq<Op>, held: seq<ExpectedStorage>, i: nat, s: ExpectedStorage)
    requires i < |all| && Count(held, all[i].storage) >= Count(Storages(all), all[i].storage)
    ensures Count(RemoveFirst(held, all[i].storage), s) - Count(Storages(RemoveAt(all, i)), s) ==
            Count(held, s) - Count(Storages(all), s)
  {
    RemoveAtStorages(all, i);
    CountRemoveAt(Storages(all), i, s);
    CountMember(Storages(all), all[i].storage);
    CountMember(held, all[i].storage);
    CountRemoveFirst(held, all[i].storage, s);
  }

  lemma ResignKeeps(c: Context, key: Address, sign: Signer)
    requires Ok(c)
    ensures Rejects(c, Resign(c, key, sign))
  {
    var k := Find(c.groups, key);
    if key == ZERO || k == |c.groups| {
      RejectsRefl(c);
    } else if sign(key, c.groups[k].ops) {
      SignedGroups(c.groups, k, Signed(c.groups[k].ops));
      var r := Resign(c, key, sign);
      assert forall op :: Tally(r, op) == Tally(c, op);
      assert forall s :: Surplus(r, s) == Surplus(c, s);
    } else {
      FilterRejectKeeps(c, Entity(Aggregator, key), true);
    }
  }
}
