/** The proposal as the proposer mutates it. Every method is proved against the function
    of the same name on values. */
module ProposalState {
  import opened Primitives
  import opened Lists
  import opened Storage
  import opened UserOps
  import Proposal
  import Rejections
  import Rounds
  import Positions
  import AssemblyLaws

  type Group = Proposal.Group
  type Context = Proposal.Context

  /** The storage of every operation still to be rejected is held. */
  ghost predicate Holds(held: seq<ExpectedStorage>, ops: seq<Op>) {
    forall s :: Count(Proposal.Storages(ops), s) <= Count(held, s)
  }

  lemma HoldsHead(held: seq<ExpectedStorage>, ops: seq<Op>)
    requires ops != [] && Holds(held, ops)
    ensures ops[0].storage in held && Holds(RemoveFirst(held, ops[0].storage), ops[1..])
  {
    var s0 := ops[0].storage;
    assert Proposal.Storages(ops)[1..] == Proposal.Storages(ops[1..]);
    assert Count(Proposal.Storages(ops), s0) > 0;
    CountMember(held, s0);
    forall s ensures Count(Proposal.Storages(ops[1..]), s) <= Count(RemoveFirst(held, s0), s) {
      assert Count(Proposal.Storages(ops), s) <= Count(held, s);
      CountRemoveFirst(held, s0, s);
    }
  }

  lemma {:induction false} RejectManySplit(c: Context, a: seq<Op>, b: seq<Op>, amendment: bool)
    ensures Proposal.RejectMany(c, a + b, amendment) ==
            Proposal.RejectMany(Proposal.RejectMany(c, a, amendment), b, amendment)
    decreases |a|
  {
    if a == [] {
      assert a + b == b;
    } else {
      RejectManySplit(Proposal.Reject(c, a[0], amendment), a[1..], b, amendment);
      assert (a + b)[1..] == a[1..] + b;
    }
  }

  class ProposalContext {
    var groups: seq<Group>
    var rejected: seq<Proposal.Rejection>
    var updates: map<Address, EntityUpdate>
    const storage: BundleExpectedStorage

    ghost function Value(): Context
      reads this, storage
    {
      Proposal.Context(groups, rejected, updates, storage.held)
    }

    ghost predicate Valid()
      reads this, storage
    {
      storage.Valid() && Rejections.Ok(Value())
    }

    constructor ()
      ensures Valid() && fresh(storage) && Value() == Proposal.EMPTY
    {
      groups, rejected, updates := [], [], map[];
      storage := new BundleExpectedStorage();
    }

    /** Indexing the flattened list of operations. */
    method GetOpAt(index: nat) returns (r: Option<Op>)
      ensures r == if index < |Proposal.Flat(groups)| then Some(Proposal.Flat(groups)[index]) else None
    {
      var k, remaining := Locate(groups, index);
      r := if k < |groups| then Some(groups[k].ops[remaining]) else None;
    }

    method GetOpIndex(hash: Hash) returns (r: Option<nat>)
      ensures var i := Rounds.IndexOf(Proposal.Flat(groups), hash);
              r == if i < |Proposal.Flat(groups)| then Some(i) else None
    {
      var ops := Proposal.Flat(groups);
      var i := 0;
      while i < |ops|
        invariant i <= |ops| && forall j | 0 <= j < i :: ops[j].hash != hash
      {
        if ops[i].hash == hash { return Some(i); }
        i := i + 1;
      }
      return None;
    }

    method AddPaymasterAmendment(address: Address)
      modifies this`updates
      ensures updates == Proposal.Amend(old(updates), address)
    {
      if address in updates {
        var update := updates[address];
        if update.value.Some? {
          updates := updates[address := update.(value := Some(update.value.value + 1))];
        }
      } else {
        updates := updates[address := EntityUpdate(Entity(Paymaster, address), PaymasterOpsSeenDecrement, Some(1))];
      }
    }

    method RejectOp(op: Op, amendment: bool)
      requires storage.Valid() && op.storage in storage.held
      modifies this, storage
      ensures storage.Valid() && Value() == Proposal.Reject(old(Value()), op, amendment)
    {
      var amended: Option<Address> := None;
      if amendment && op.paymaster.Some? {
        AddPaymasterAmendment(op.paymaster.value);
        amended := op.paymaster;
      }
      rejected := rejected + [Proposal.Rejection(op, amended)];
      storage.Remove(op.storage);
    }

    /** Says which aggregator has to sign again: that of the operation, unless its group is gone. */
    method RejectIndex(i: nat, amendment: bool) returns (changed: Option<Address>)
      requires Valid()
      modifies this, storage
      ensures Valid()
      ensures i >= |Proposal.Flat(old(groups))| ==> Value() == old(Value()) && changed == None
      ensures i < |Proposal.Flat(old(groups))| ==>
                && Value() == Proposal.RejectIndex(old(Value()), i, amendment)
                && (changed.Some? ==> changed.value == KeyOf(Proposal.Flat(old(groups))[i]))
                && (changed.None? ==> Proposal.Find(groups, KeyOf(Proposal.Flat(old(groups))[i])) == |groups|)
    {
      var k, remaining := Locate(groups, i);
      if k == |groups| {
        return None;
      }
      Rejections.RejectIndexKeeps(Value(), i, amendment);
      OpHeld(i);
      TouchedKey(groups, k, remaining);
      var group := groups[k];
      RejectOp(group.ops[remaining], amendment);
      if |group.ops| == 1 {
        groups := groups[..k] + groups[k + 1..];
        changed := None;
      } else {
        groups := groups[k := group.(ops := RemoveAt(group.ops, remaining))];
        changed := Some(group.key);
      }
      InPlace(old(groups), k, remaining);
    }

    method RejectAll()
      requires Valid()
      modifies this, storage
      ensures Valid() && Value() == Rounds.RejectAll(old(Value()))
    {
      var n := |Proposal.Flat(groups)|;
      for j := 0 to n
        invariant Valid() && |Proposal.Flat(groups)| == n - j
        invariant Rounds.RejectAll(Value()) == Rounds.RejectAll(old(Value()))
      {
        Rejections.RejectIndexKeeps(Value(), 0, true);
        var _ := RejectIndex(0, true);
      }
    }

    /** Rejects those of the operations that an entity is responsible for. */
    method RejectSelected(ops: seq<Op>, entity: Entity, amendment: bool) returns (kept: seq<Op>)
      requires storage.Valid() && Holds(storage.held, Selected(ops, entity))
      modifies this, storage
      ensures storage.Valid() && kept == Unselected(ops, entity)
      ensures Value() == Proposal.RejectMany(old(Value()), Selected(ops, entity), amendment)
    {
      kept := [];
      ghost var final := Proposal.RejectMany(Value(), Selected(ops, entity), amendment);
      for j := 0 to |ops|
        invariant storage.Valid() && Holds(storage.held, Selected(ops[j..], entity))
        invariant kept + Unselected(ops[j..], entity) == Unselected(ops, entity)
        invariant Proposal.RejectMany(Value(), Selected(ops[j..], entity), amendment) == final
      {
        var left := RejectIfSelected(ops, j, entity, amendment);
        ConcatAssoc(kept, left, Unselected(ops[j + 1..], entity));
        kept := kept + left;
      }
    }

    /** Rejects the operation if the entity is responsible for it; what is left is returned. */
    method RejectIfSelected(ops: seq<Op>, j: nat, entity: Entity, amendment: bool) returns (left: seq<Op>)
      requires j < |ops| && storage.Valid() && Holds(storage.held, Selected(ops[j..], entity))
      modifies this, storage
      ensures storage.Valid() && Holds(storage.held, Selected(ops[j + 1..], entity))
      ensures left + Unselected(ops[j + 1..], entity) == Unselected(ops[j..], entity)
      ensures Proposal.RejectMany(Value(), Selected(ops[j + 1..], entity), amendment) ==
              Proposal.RejectMany(old(Value()), Selected(ops[j..], entity), amendment)
    {
      SelectedStep(ops, j, entity);
      if Selects(entity, ops[j]) {
        HoldsHead(storage.held, Selected(ops[j..], entity));
        RejectOp(ops[j], amendment);
        left := [];
      } else {
        left := [ops[j]];
      }
    }

    method PurgeGroup(group: Group, entity: Entity, amendment: bool) returns (survivors: seq<Group>)
      requires storage.Valid() && Holds(storage.held, Selected(group.ops, entity))
      modifies this, storage
      ensures storage.Valid() && survivors == Proposal.PurgeGroup(group, entity)
      ensures Value() == Proposal.RejectMany(old(Value()), Selected(group.ops, entity), amendment)
    {
      var kept := RejectSelected(group.ops, entity, amendment);
      survivors := if |kept| == |group.ops| then [group]
                   else if kept == [] then [] else [Proposal.Group(group.key, kept, Proposal.Unsigned)];
    }

    /** Goes through the groups; what survives of them is returned, not yet installed. */
    method Purge(entity: Entity, amendment: bool) returns (newGroups: seq<Group>)
      requires storage.Valid() && Holds(storage.held, Selected(Proposal.Flat(groups), entity))
      modifies this, storage
      ensures storage.Valid() && newGroups == Proposal.Purge(old(groups), entity)
      ensures Value() == Proposal.RejectMany(old(Value()), Selected(Proposal.Flat(old(groups)), entity), amendment)
    {
      newGroups := [];
      var gs := groups;
      ghost var final := Proposal.RejectMany(Value(), Selected(Proposal.Flat(gs), entity), amendment);
      for k := 0 to |gs|
        invariant storage.Valid()
        invariant Holds(storage.held, Selected(Proposal.Flat(gs[k..]), entity))
        invariant newGroups + Proposal.Purge(gs[k..], entity) == Proposal.Purge(gs, entity)
        invariant Proposal.RejectMany(Value(), Selected(Proposal.Flat(gs[k..]), entity), amendment) == final
      {
        FilterStep(Value(), gs, k, entity, amendment);
        var survivors := PurgeGroup(gs[k], entity, amendment);
        ConcatAssoc(newGroups, survivors, Proposal.Purge(gs[k + 1..], entity));
        newGroups := newGroups + survivors;
      }
    }

    /** Reports the unaggregated group as changed when it is hit and survives, and no other:
        no aggregator is asked to sign again. */
    method FilterReject(entity: Entity, amendment: bool) returns (changed: seq<Address>)
      requires Valid()
      modifies this, storage
      ensures Valid() && Value() == Proposal.FilterReject(old(Value()), entity, amendment)
      ensures forall i | 0 <= i < |changed| :: changed[i] == ZERO
    {
      Rejections.FilterRejectKeeps(Value(), entity, amendment);
      SelectedHeld(Value(), entity);
      var k := Proposal.Find(groups, ZERO);
      changed := [];
      if k < |groups| {
        var left := Proposal.PurgeGroup(groups[k], entity);
        if left != [] && left != [groups[k]] { changed := [ZERO]; }
      }
      groups := Purge(entity, amendment);
    }

    method RejectEntity(entity: Entity, isStaked: bool) returns (changed: seq<Address>)
      requires Valid()
      modifies this, storage
      ensures Valid() && Value() == Proposal.RejectEntity(old(Value()), entity, isStaked)
      ensures forall i | 0 <= i < |changed| :: changed[i] == ZERO
    {
      Rejections.RejectEntityKeeps(Value(), entity, isStaked);
      changed := FilterReject(entity, entity.kind != Paymaster);
      updates := updates[entity.address := Proposal.Invalidation(entity, isStaked)];
    }

    /** Stores a new aggregated signature, or rejects the group when there is none. */
    method ApplySignature(key: Address, ok: bool, ghost sign: Proposal.Signer)
      requires Valid() && key != ZERO
      requires var k := Proposal.Find(groups, key); k < |groups| && ok == sign(key, groups[k].ops)
      modifies this, storage
      ensures Valid() && Value() == Proposal.Resign(old(Value()), key, sign)
    {
      Rejections.ResignKeeps(Value(), key, sign);
      if ok {
        var k := Proposal.Find(groups, key);
        groups := groups[k := groups[k].(signature := Proposal.Signed(groups[k].ops))];
      } else {
        var _ := FilterReject(Entity(Aggregator, key), true);
      }
    }

    lemma OpHeld(i: nat)
      requires Valid() && i < |Proposal.Flat(groups)|
      ensures Proposal.Flat(groups)[i].storage in storage.held
    {
      AssemblyLaws.StorageCoversOps(Value(), storage.inner, storage.counts, i);
    }
  }

  lemma SelectedStep(ops: seq<Op>, j: nat, entity: Entity)
    requires j < |ops|
    ensures Selects(entity, ops[j]) ==>
              && Selected(ops[j..], entity) != [] && Selected(ops[j..], entity)[0] == ops[j]
              && Selected(ops[j..], entity)[1..] == Selected(ops[j + 1..], entity)
              && Unselected(ops[j..], entity) == Unselected(ops[j + 1..], entity)
    ensures !Selects(entity, ops[j]) ==>
              && Selected(ops[j..], entity) == Selected(ops[j + 1..], entity)
              && Unselected(ops[j..], entity) == [ops[j]] + Unselected(ops[j + 1..], entity)
  {
    assert ops[j..][0] == ops[j] && ops[j..][1..] == ops[j + 1..];
  }

  lemma SelectedHeld(c: Context, entity: Entity)
    requires Rejections.Ok(c)
    ensures Holds(c.held, Selected(Proposal.Flat(c.groups), entity))
  {
    var all := Proposal.Flat(c.groups);
    forall s ensures Count(Proposal.Storages(Selected(all, entity)), s) <= Count(c.held, s) {
      Rejections.SelectedStorages(all, entity, s);
      assert Rejections.Surplus(c, s) >= 0;
    }
  }

  lemma HoldsSplit(c: Context, a: seq<Op>, b: seq<Op>, amendment: bool)
    requires Holds(c.held, a + b)
    ensures Holds(c.held, a) && Holds(Proposal.RejectMany(c, a, amendment).held, b)
  {
    forall s
      ensures Count(Proposal.Storages(a + b), s) ==
              Count(Proposal.Storages(a), s) + Count(Proposal.Storages(b), s)
    {
      StoragesConcat(a, b);
      CountConcat(Proposal.Storages(a), Proposal.Storages(b), s);
    }
    forall s ensures Count(Proposal.Storages(b), s) <= Count(Proposal.RejectMany(c, a, amendment).held, s) {
      assert Count(Proposal.Storages(a + b), s) <= Count(c.held, s);
      Rejections.RejectManyHeld(c, a, amendment, s);
    }
  }

  lemma {:induction false} StoragesConcat(a: seq<Op>, b: seq<Op>)
    ensures Proposal.Storages(a + b) == Proposal.Storages(a) + Proposal.Storages(b)
    decreases |a|
  {
    if a == [] {
      assert a + b == b;
    } else {
      StoragesConcat(a[1..], b);
      assert (a + b)[1..] == a[1..] + b;
    }
  }

  /** Filtering group by group is filtering the flattened list. */
  lemma {:induction false} FilterStep(c: Context, gs: seq<Group>, k: nat, entity: Entity, amendment: bool)
    requires k < |gs| && Holds(c.held, Selected(Proposal.Flat(gs[k..]), entity))
    ensures Proposal.Purge(gs[k..], entity) == Proposal.PurgeGroup(gs[k], entity) + Proposal.Purge(gs[k + 1..], entity)
    ensures Holds(c.held, Selected(gs[k].ops, entity))
    ensures var c' := Proposal.RejectMany(c, Selected(gs[k].ops, entity), amendment);
            && Holds(c'.held, Selected(Proposal.Flat(gs[k + 1..]), entity))
            && Proposal.RejectMany(c, Selected(Proposal.Flat(gs[k..]), entity), amendment) ==
               Proposal.RejectMany(c', Selected(Proposal.Flat(gs[k + 1..]), entity), amendment)
  {
    var rest := Selected(Proposal.Flat(gs[k + 1..]), entity);
    assert gs[k..][0] == gs[k] && gs[k..][1..] == gs[k + 1..];
    Proposal.SelectedConcat(gs[k].ops, Proposal.Flat(gs[k + 1..]), entity);
    RejectManySplit(c, Selected(gs[k].ops, entity), rest, amendment);
    HoldsSplit(c, Selected(gs[k].ops, entity), rest, amendment);
  }

  /** The group an index of the flattened list falls in, counting down group by group. */
  method Locate(gs: seq<Group>, i: nat) returns (k: nat, remaining: nat)
    ensures k <= |gs| && (k == |gs| <==> i >= |Proposal.Flat(gs)|)
    ensures k < |gs| ==>
              && remaining < |gs[k].ops|
              && Proposal.Flat(gs)[i] == gs[k].ops[remaining]
              && Proposal.TakeOut(gs, i) == gs[..k] + (Remainder(gs[k], remaining) + gs[k + 1..])
  {
    k, remaining := 0, i;
    while k < |gs| && remaining >= |gs[k].ops|
      invariant k <= |gs| && i == |Proposal.Flat(gs[..k])| + remaining
    {
      FlatPrefix(gs, k);
      remaining := remaining - |gs[k].ops|;
      k := k + 1;
    }
    if k < |gs| {
      Located(gs, k, remaining);
    } else {
      assert gs[..k] == gs;
    }
  }

  lemma Located(gs: seq<Group>, k: nat, r: nat)
    requires k < |gs| && r < |gs[k].ops|
    ensures var i := |Proposal.Flat(gs[..k])| + r;
            && i < |Proposal.Flat(gs)| && Proposal.Flat(gs)[i] == gs[k].ops[r]
            && Proposal.TakeOut(gs, i) == gs[..k] + (Remainder(gs[k], r) + gs[k + 1..])
  {
    assert gs == gs[..k] + ([gs[k]] + gs[k + 1..]);
    TakeOutAt(gs[..k], gs[k], gs[k + 1..], r);
  }

  lemma {:induction false} FlatPrefix(gs: seq<Group>, k: nat)
    requires k < |gs|
    ensures Proposal.Flat(gs[..k + 1]) == Proposal.Flat(gs[..k]) + gs[k].ops
    decreases k
  {
    if k == 0 {
      assert gs[..1][1..] == [];
    } else {
      FlatPrefix(gs[1..], k - 1);
      assert gs[..k + 1][1..] == gs[1..][..k] && gs[..k][1..] == gs[1..][..k - 1];
    }
  }

  /** What is left of a group when one of its operations is taken out. */
  function Remainder(g: Group, r: nat): seq<Group>
    requires r < |g.ops|
  {
    if |g.ops| == 1 then [] else [g.(ops := RemoveAt(g.ops, r))]
  }

  lemma {:induction false} TakeOutAt(pre: seq<Group>, g: Group, post: seq<Group>, r: nat)
    requires r < |g.ops|
    ensures var gs, i := pre + ([g] + post), |Proposal.Flat(pre)| + r;
            && i < |Proposal.Flat(gs)| && Proposal.Flat(gs)[i] == g.ops[r]
            && Proposal.TakeOut(gs, i) == pre + (Remainder(g, r) + post)
    decreases |pre|
  {
    if pre == [] {
      Proposal.TakeOutHead(g, post, r);
      assert [] + post == post && pre + ([g] + post) == [g] + post;
      assert pre + (Remainder(g, r) + post) == Remainder(g, r) + post;
    } else {
      var p, rest := pre[0], pre[1..];
      TakeOutAt(rest, g, post, r);
      assert pre == [p] + rest;
      TakeOutBehind(p, rest, [g] + post, |Proposal.Flat(rest)| + r, Remainder(g, r) + post);
    }
  }

  lemma TakeOutBehind(p: Group, rest: seq<Group>, mid: seq<Group>, j: nat, left: seq<Group>)
    requires j < |Proposal.Flat(rest + mid)| && Proposal.TakeOut(rest + mid, j) == rest + left
    ensures |Proposal.Flat([p] + rest)| == |p.ops| + |Proposal.Flat(rest)|
    ensures var gs, i := [p] + rest + mid, |p.ops| + j;
            && i < |Proposal.Flat(gs)| && Proposal.Flat(gs)[i] == Proposal.Flat(rest + mid)[j]
            && Proposal.TakeOut(gs, i) == [p] + rest + left
  {
    Proposal.FlatCons(p, rest);
    Proposal.TakeOutCons(p, rest + mid, j);
    ConcatAssoc([p], rest, mid);
    ConcatAssoc([p], rest, left);
  }

  lemma InPlace(gs: seq<Group>, k: nat, r: nat)
    requires k < |gs| && r < |gs[k].ops|
    ensures gs[..k] + (Remainder(gs[k], r) + gs[k + 1..]) ==
            if |gs[k].ops| == 1 then gs[..k] + gs[k + 1..] else gs[k := gs[k].(ops := RemoveAt(gs[k].ops, r))]
  {
  }

  lemma {:induction false} TouchedKey(gs: seq<Group>, k: nat, r: nat)
    requires Proposal.WellFormed(gs) && k < |gs| && r < |gs[k].ops|
    ensures KeyOf(gs[k].ops[r]) == gs[k].key
    ensures Proposal.Find(gs[..k] + gs[k + 1..], gs[k].key) == |gs| - 1
    decreases k
  {
    if k == 0 {
      assert gs[..k] + gs[k + 1..] == gs[1..];
      NotFound(gs[1..], gs[0].key);
    } else {
      TouchedKey(gs[1..], k - 1, r);
      assert (gs[..k] + gs[k + 1..])[1..] == gs[1..][..k - 1] + gs[1..][k..];
      Positions.KeysMember(gs[1..], k - 1);
    }
  }

  lemma {:induction false} NotFound(gs: seq<Group>, key: Address)
    requires key !in Proposal.Keys(gs)
    ensures Proposal.Find(gs, key) == |gs|
    decreases |gs|
  {
    if gs != [] { NotFound(gs[1..], key); }
  }
}
