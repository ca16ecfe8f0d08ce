/** The state of a bundle proposal as a value, and what each rejection does to it
    (ProposalContext in bundle_proposer.rs). */
module Proposal {
  import opened Primitives
  import opened Lists
  import opened Storage
  import opened UserOps

  /** A signature is known by the operations it was aggregated over. */
  datatype Signature = Unsigned | Signed(over: seq<Op>)
  datatype Group = Group(key: Address, ops: seq<Op>, signature: Signature)

  /** A rejected operation, with the paymaster whose ops-seen count it amended, if any. */
  datatype Rejection = Rejection(op: Op, amended: Option<Address>)

  datatype Context = Context(
    groups: seq<Group>, rejected: seq<Rejection>, updates: map<Address, EntityUpdate>, held: seq<ExpectedStorage>)

  const EMPTY := Context([], [], map[], [])

  // ---------------------------------------------------------------- groups

  function Flat(gs: seq<Group>): (ops: seq<Op>) {
    if gs == [] then [] else gs[0].ops + Flat(gs[1..])
  }

  function Keys(gs: seq<Group>): (keys: set<Address>) {
    if gs == [] then {} else {gs[0].key} + Keys(gs[1..])
  }

  predicate GroupOk(g: Group) {
    g.ops != [] && forall i | 0 <= i < |g.ops| :: KeyOf(g.ops[i]) == g.key
  }

  /** Keys are distinct, no group is empty, every operation is filed under its own aggregator. */
  predicate WellFormed(gs: seq<Group>) {
    gs == [] || (GroupOk(gs[0]) && gs[0].key !in Keys(gs[1..]) && WellFormed(gs[1..]))
  }

  predicate Fresh(g: Group) {
    g.key == ZERO || g.signature == Signed(g.ops)
  }

  predicate AllFresh(gs: seq<Group>) {
    forall i | 0 <= i < |gs| :: Fresh(gs[i])
  }

  /** Files an operation at the end of its group, which is created at the end when missing. */
  function AddOp(gs: seq<Group>, op: Op): (r: seq<Group>) {
    if gs == [] then [Group(KeyOf(op), [op], Unsigned)]
    else if gs[0].key == KeyOf(op) then [gs[0].(ops := gs[0].ops + [op])] + gs[1..]
    else [gs[0]] + AddOp(gs[1..], op)
  }

  /** Takes out the `i`-th operation of the flattened list; a group it empties goes too.
      The signature of a group that survives is left as it was. */
  function TakeOut(gs: seq<Group>, i: nat): (r: seq<Group>)
    requires i < |Flat(gs)|
  {
    var n := |gs[0].ops|;
    if i >= n then [gs[0]] + TakeOut(gs[1..], i - n)
    else if n == 1 then gs[1..]
    else [gs[0].(ops := RemoveAt(gs[0].ops, i))] + gs[1..]
  }

  /** Takes out everything an entity is responsible for. A group that is touched and
      survives is rebuilt without a signature. */
  function Purge(gs: seq<Group>, entity: Entity): (r: seq<Group>) {
    if gs == [] then [] else PurgeGroup(gs[0], entity) + Purge(gs[1..], entity)
  }

  function PurgeGroup(g: Group, entity: Entity): (r: seq<Group>) {
    var kept := Unselected(g.ops, entity);
    if |kept| == |g.ops| then [g] else if kept == [] then [] else [Group(g.key, kept, Unsigned)]
  }

  /** The position of the group with a given key, or the number of groups. */
  function Find(gs: seq<Group>, key: Address): (k: nat)
    ensures k <= |gs|
    ensures k < |gs| ==> gs[k].key == key
    ensures forall i | 0 <= i < k :: gs[i].key != key
  {
    if gs == [] || gs[0].key == key then 0 else 1 + Find(gs[1..], key)
  }

  function GroupAt(gs: seq<Group>, key: Address): Option<Group> {
    var k := Find(gs, key);
    if k < |gs| then Some(gs[k]) else None
  }

  lemma GroupAtCons(g: Group, gs: seq<Group>, key: Address)
    ensures GroupAt([g] + gs, key) == if g.key == key then Some(g) else GroupAt(gs, key)
  {
    assert ([g] + gs)[1..] == gs;
  }

  lemma FlatCons(g: Group, gs: seq<Group>)
    ensures Flat([g] + gs) == g.ops + Flat(gs)
  {
    assert ([g] + gs)[1..] == gs;
  }

  /** Taking out of a later group leaves the first one alone. */
  lemma TakeOutCons(g: Group, gs: seq<Group>, j: nat)
    requires j < |Flat(gs)|
    ensures |g.ops| + j < |Flat([g] + gs)| && Flat([g] + gs)[|g.ops| + j] == Flat(gs)[j]
    ensures TakeOut([g] + gs, |g.ops| + j) == [g] + TakeOut(gs, j)
  {
    FlatCons(g, gs);
    assert ([g] + gs)[1..] == gs;
  }

  /** Taking out of the first group leaves the later ones alone. */
  lemma TakeOutHead(g: Group, gs: seq<Group>, j: nat)
    requires j < |g.ops|
    ensures j < |Flat([g] + gs)| && Flat([g] + gs)[j] == g.ops[j]
    ensures TakeOut([g] + gs, j) == if |g.ops| == 1 then gs else [g.(ops := RemoveAt(g.ops, j))] + gs
  {
    FlatCons(g, gs);
    assert ([g] + gs)[1..] == gs;
  }

  /** `hs` is `gs` with operations, or whole groups, taken out. */
  predicate Shrinks(hs: seq<Group>, gs: seq<Group>)
    decreases |gs|
  {
    if hs == [] then true
    else if gs == [] then false
    else (hs[0].key == gs[0].key && Subseq(hs[0].ops, gs[0].ops) && Shrinks(hs[1..], gs[1..])) || Shrinks(hs, gs[1..])
  }

  // ---------------------------------------------------------------- rejections

  /** An ops-seen amendment: counts up a decrement, starts one, leaves an invalidation alone. */
  function Amend(updates: map<Address, EntityUpdate>, paymaster: Address): (r: map<Address, EntityUpdate>) {
    if paymaster in updates then
      var u := updates[paymaster];
      if u.value.Some? then updates[paymaster := u.(value := Some(u.value.value + 1))] else updates
    else
      updates[paymaster := EntityUpdate(Entity(Paymaster, paymaster), PaymasterOpsSeenDecrement, Some(1))]
  }

  function Reject(c: Context, op: Op, amendment: bool): (r: Context) {
    var amended := if amendment then op.paymaster else None;
    Context(c.groups, c.rejected + [Rejection(op, amended)],
            if amended.Some? then Amend(c.updates, amended.value) else c.updates,
            RemoveFirst(c.held, op.storage))
  }

  function RejectMany(c: Context, ops: seq<Op>, amendment: bool): (r: Context)
    decreases |ops|
  {
    if ops == [] then c else RejectMany(Reject(c, ops[0], amendment), ops[1..], amendment)
  }

  /** The storages the operations bring, one copy per operation. */
  function Storages(ops: seq<Op>): (r: seq<ExpectedStorage>) {
    if ops == [] then [] else [ops[0].storage] + Storages(ops[1..])
  }

  /** Rejects everything an entity is responsible for. */
  function FilterReject(c: Context, entity: Entity, amendment: bool): (r: Context) {
    RejectMany(c, Selected(Flat(c.groups), entity), amendment).(groups := Purge(c.groups, entity))
  }

  function Invalidation(entity: Entity, isStaked: bool): EntityUpdate {
    EntityUpdate(entity, if isStaked then StakedInvalidation else UnstakedInvalidation, None)
  }

  /** Only a paymaster's own rejection does not amend paymasters. */
  function RejectEntity(c: Context, entity: Entity, isStaked: bool): (r: Context) {
    var c' := FilterReject(c, entity, entity.kind != Paymaster);
    c'.(updates := c'.updates[entity.address := Invalidation(entity, isStaked)])
  }

  /** Rejects one operation by position; signatures are not touched. */
  function RejectIndex(c: Context, i: nat, amendment: bool): (r: Context)
    requires i < |Flat(c.groups)|
  {
    Reject(c, Flat(c.groups)[i], amendment).(groups := TakeOut(c.groups, i))
  }

  /** The answer of the aggregators: whether they can aggregate these operations. */
  type Signer = (Address, seq<Op>) -> bool

  /** Aggregates the signatures of one group again; on failure its operations are rejected. */
  function Resign(c: Context, key: Address, sign: Signer): (r: Context) {
    var k := Find(c.groups, key);
    if key == ZERO || k == |c.groups| then c
    else if sign(key, c.groups[k].ops) then
      c.(groups := c.groups[k := c.groups[k].(signature := Signed(c.groups[k].ops))])
    else FilterReject(c, Entity(Aggregator, key), true)
  }

  lemma {:induction false} SelectedSubseq(ops: seq<Op>, entity: Entity)
    ensures Subseq(Selected(ops, entity), ops) && Subseq(Unselected(ops, entity), ops)
    decreases |ops|
  {
    if ops != [] {
      SelectedSubseq(ops[1..], entity);
      if Selects(entity, ops[0]) {
        assert Selected(ops, entity)[1..] == Selected(ops[1..], entity);
        assert Unselected(ops, entity) == Unselected(ops[1..], entity);
      } else {
        assert Unselected(ops, entity)[1..] == Unselected(ops[1..], entity);
        assert Selected(ops, entity) == Selected(ops[1..], entity);
      }
    }
  }

  lemma {:induction false} SelectedSplitsLength(ops: seq<Op>, entity: Entity)
    ensures |ops| == |Selected(ops, entity)| + |Unselected(ops, entity)|
    decreases |ops|
  {
    if ops != [] { SelectedSplitsLength(ops[1..], entity); }
  }

  lemma {:induction false} SelectedSplits(ops: seq<Op>, entity: Entity, x: Op)
    ensures Count(ops, x) == Count(Selected(ops, entity), x) + Count(Unselected(ops, entity), x)
    decreases |ops|
  {
    if ops != [] {
      SelectedSplits(ops[1..], entity, x);
      if Selects(entity, ops[0]) {
        assert Selected(ops, entity)[1..] == Selected(ops[1..], entity);
        assert Unselected(ops, entity) == Unselected(ops[1..], entity);
      } else {
        assert Unselected(ops, entity)[1..] == Unselected(ops[1..], entity);
        assert Selected(ops, entity) == Selected(ops[1..], entity);
      }
    }
  }

  // ---------------------------------------------------------------- the groups after a rejection

  lemma {:induction false} TakeOutFlat(gs: seq<Group>, i: nat)
    requires i < |Flat(gs)|
    ensures Flat(TakeOut(gs, i)) == RemoveAt(Flat(gs), i)
    decreases |gs|
  {
    var n := |gs[0].ops|;
    if i >= n {
      TakeOutFlat(gs[1..], i - n);
      assert ([gs[0]] + TakeOut(gs[1..], i - n))[1..] == TakeOut(gs[1..], i - n);
      RemoveAtRight(gs[0].ops, Flat(gs[1..]), i - n);
    } else {
      RemoveAtLeft(gs[0].ops, Flat(gs[1..]), i);
      if n > 1 {
        assert ([gs[0].(ops := RemoveAt(gs[0].ops, i))] + gs[1..])[1..] == gs[1..];
      }
    }
  }

  lemma {:induction false} TakeOutWellFormed(gs: seq<Group>, i: nat)
    requires i < |Flat(gs)| && WellFormed(gs)
    ensures WellFormed(TakeOut(gs, i)) && Keys(TakeOut(gs, i)) <= Keys(gs) && Shrinks(TakeOut(gs, i), gs)
    decreases |gs|
  {
    var n := |gs[0].ops|;
    var r := TakeOut(gs, i);
    if i >= n {
      TakeOutWellFormed(gs[1..], i - n);
      assert r[1..] == TakeOut(gs[1..], i - n);
      SubseqRefl(gs[0].ops);
    } else {
      ShrinksRefl(gs[1..]);
      if n > 1 {
        assert r[1..] == gs[1..];
        SubseqRemoveAt(gs[0].ops, i);
      }
    }
  }

  lemma {:induction false} ShrinksRefl(gs: seq<Group>)
    ensures Shrinks(gs, gs)
    decreases |gs|
  {
    if gs != [] {
      ShrinksRefl(gs[1..]);
      SubseqRefl(gs[0].ops);
    }
  }

  lemma {:induction false} ShrinksTrans(fs: seq<Group>, gs: seq<Group>, hs: seq<Group>)
    requires Shrinks(fs, gs) && Shrinks(gs, hs)
    ensures Shrinks(fs, hs)
    decreases |hs|, |gs|
  {
    if fs != [] && hs != [] {
      if gs[0].key == hs[0].key && Subseq(gs[0].ops, hs[0].ops) && Shrinks(gs[1..], hs[1..]) {
        if fs[0].key == gs[0].key && Subseq(fs[0].ops, gs[0].ops) && Shrinks(fs[1..], gs[1..]) {
          SubseqTrans(fs[0].ops, gs[0].ops, hs[0].ops);
          ShrinksTrans(fs[1..], gs[1..], hs[1..]);
        } else {
          ShrinksTrans(fs, gs[1..], hs[1..]);
        }
      } else {
        ShrinksTrans(fs, gs, hs[1..]);
      }
    }
  }

  /** Survivors keep their order in the flattened list. */
  lemma {:induction false} ShrinksFlat(hs: seq<Group>, gs: seq<Group>)
    requires Shrinks(hs, gs)
    ensures Subseq(Flat(hs), Flat(gs)) && Keys(hs) <= Keys(gs)
    decreases |gs|
  {
    if hs != [] {
      if hs[0].key == gs[0].key && Subseq(hs[0].ops, gs[0].ops) && Shrinks(hs[1..], gs[1..]) {
        ShrinksFlat(hs[1..], gs[1..]);
        SubseqConcat(hs[0].ops, gs[0].ops, Flat(hs[1..]), Flat(gs[1..]));
      } else {
        ShrinksFlat(hs, gs[1..]);
        SubseqPrepend(Flat(hs), gs[0].ops, Flat(gs[1..]));
      }
    }
  }

  lemma {:induction false} SelectedConcat(a: seq<Op>, b: seq<Op>, entity: Entity)
    ensures Selected(a + b, entity) == Selected(a, entity) + Selected(b, entity)
    decreases |a|
  {
    if a == [] {
      assert a + b == b;
    } else {
      SelectedConcat(a[1..], b, entity);
      assert (a + b)[1..] == a[1..] + b;
    }
  }

  lemma {:induction false} UnselectedConcat(a: seq<Op>, b: seq<Op>, entity: Entity)
    ensures Unselected(a + b, entity) == Unselected(a, entity) + Unselected(b, entity)
    decreases |a|
  {
    if a == [] {
      assert a + b == b;
    } else {
      UnselectedConcat(a[1..], b, entity);
      assert (a + b)[1..] == a[1..] + b;
    }
  }

  lemma {:induction false} NothingSelected(ops: seq<Op>, entity: Entity)
    requires Selected(ops, entity) == []
    ensures Unselected(ops, entity) == ops
    decreases |ops|
  {
    if ops != [] { NothingSelected(ops[1..], entity); }
  }

  lemma {:induction false} PurgeFlat(gs: seq<Group>, entity: Entity)
    ensures Flat(Purge(gs, entity)) == Unselected(Flat(gs), entity)
    decreases |gs|
  {
    if gs != [] {
      var rest := Purge(gs[1..], entity);
      PurgeFlat(gs[1..], entity);
      UnselectedConcat(gs[0].ops, Flat(gs[1..]), entity);
      UnselectedAll(gs[0].ops, entity);
      var head := PurgeGroup(gs[0], entity);
      if head == [] { assert head + rest == rest; } else { assert (head + rest)[1..] == rest; }
    }
  }

  lemma UnselectedAll(ops: seq<Op>, entity: Entity)
    ensures |Unselected(ops, entity)| == |ops| <==> Selected(ops, entity) == []
    ensures Selected(ops, entity) == [] ==> Unselected(ops, entity) == ops
  {
    SelectedSplitsLength(ops, entity);
    if Selected(ops, entity) == [] { NothingSelected(ops, entity); }
  }

  lemma {:induction false} PurgeWellFormed(gs: seq<Group>, entity: Entity)
    requires WellFormed(gs)
    ensures WellFormed(Purge(gs, entity)) && Keys(Purge(gs, entity)) <= Keys(gs) && Shrinks(Purge(gs, entity), gs)
    decreases |gs|
  {
    if gs != [] {
      var rest := Purge(gs[1..], entity);
      PurgeWellFormed(gs[1..], entity);
      PurgeGroupOk(gs[0], entity);
      var head := PurgeGroup(gs[0], entity);
      if head == [] { assert head + rest == rest; } else { assert (head + rest)[1..] == rest; }
    }
  }

  lemma {:induction false} PurgeGroupOk(g: Group, entity: Entity)
    requires GroupOk(g)
    ensures var r := PurgeGroup(g, entity);
            r == [] || (|r| == 1 && GroupOk(r[0]) && r[0].key == g.key && Subseq(r[0].ops, g.ops))
  {
    var kept := Unselected(g.ops, entity);
    SelectedSubseq(g.ops, entity);
    SubseqRefl(g.ops);
    forall i | 0 <= i < |kept| ensures KeyOf(kept[i]) == g.key {
      SubseqMember(kept, g.ops, kept[i]);
    }
  }

  lemma AppendSubseq(ops: seq<Op>, op: Op)
    ensures Subseq(ops, ops + [op])
  {
    SubseqRefl(ops);
    SubseqConcat(ops, ops, [], [op]);
    assert ops + [] == ops;
  }

  /** What an operation adds to a bundle is part of what it adds to a bundle that has
      another operation already. */
  lemma {:induction false} AddOpKeys(gs: seq<Group>, op: Op)
    ensures Keys(AddOp(gs, op)) == Keys(gs) + {KeyOf(op)}
    decreases |gs|
  {
    if gs != [] {
      if gs[0].key == KeyOf(op) {
        assert AddOp(gs, op)[1..] == gs[1..];
      } else {
        AddOpKeys(gs[1..], op);
        assert AddOp(gs, op)[1..] == AddOp(gs[1..], op);
      }
    }
  }

  lemma {:induction false} AddOpGrows(gs: seq<Group>, op: Op)
    ensures Shrinks(gs, AddOp(gs, op))
    decreases |gs|
  {
    if gs != [] {
      var r := AddOp(gs, op);
      if gs[0].key == KeyOf(op) {
        assert r[1..] == gs[1..];
        ShrinksRefl(gs[1..]);
        AppendSubseq(gs[0].ops, op);
      } else {
        AddOpGrows(gs[1..], op);
        assert r[1..] == AddOp(gs[1..], op);
        SubseqRefl(gs[0].ops);
      }
    }
  }

  lemma {:induction false} AddOpWellFormed(gs: seq<Group>, op: Op)
    requires WellFormed(gs)
    ensures WellFormed(AddOp(gs, op)) && Keys(AddOp(gs, op)) == Keys(gs) + {KeyOf(op)} && Shrinks(gs, AddOp(gs, op))
    decreases |gs|
  {
    AddOpKeys(gs, op);
    AddOpGrows(gs, op);
    if gs != [] && gs[0].key != KeyOf(op) {
      AddOpWellFormed(gs[1..], op);
      assert AddOp(gs, op)[1..] == AddOp(gs[1..], op);
    }
  }

  /** The list has the operation at this position, and is that other list without it. */
  predicate InsertedAt(more: seq<Op>, i: nat, op: Op, less: seq<Op>) {
    i < |more| && more[i] == op && RemoveAt(more, i) == less
  }

  lemma InsertedAlone(op: Op)
    ensures InsertedAt(Flat(AddOp([], op)), 0, op, Flat([]))
  {
    var g := Group(KeyOf(op), [op], Unsigned);
    FlatCons(g, []);
    assert [g] + [] == [g] && [op] + [] == [op];
  }

  lemma InsertedHead(g: Group, gs: seq<Group>, op: Op)
    ensures InsertedAt(Flat([g.(ops := g.ops + [op])] + gs), |g.ops|, op, Flat([g] + gs))
  {
    FlatCons(g, gs);
    FlatCons(g.(ops := g.ops + [op]), gs);
    RemoveAtLeft(g.ops + [op], Flat(gs), |g.ops|);
  }

  lemma InsertedTail(g: Group, gs: seq<Group>, i: nat, op: Op, less: seq<Op>)
    requires InsertedAt(Flat(gs), i, op, less)
    ensures InsertedAt(Flat([g] + gs), |g.ops| + i, op, g.ops + less)
  {
    FlatCons(g, gs);
    RemoveAtRight(g.ops, Flat(gs), i);
  }

  /** Filing an operation inserts it into the flattened list. */
  lemma {:induction false} AddOpFlat(gs: seq<Group>, op: Op) returns (i: nat)
    ensures InsertedAt(Flat(AddOp(gs, op)), i, op, Flat(gs))
    decreases |gs|
  {
    if gs == [] {
      i := 0;
      InsertedAlone(op);
    } else {
      var g, rest := gs[0], gs[1..];
      assert gs == [g] + rest;
      if g.key == KeyOf(op) {
        i := |g.ops|;
        InsertedHead(g, rest, op);
      } else {
        var j := AddOpFlat(rest, op);
        i := |g.ops| + j;
        InsertedTail(g, AddOp(rest, op), j, op, Flat(rest));
      }
    }
  }

  /** Replacing a signature changes neither operations nor keys. */
  lemma {:induction false} SignedGroups(gs: seq<Group>, k: nat, signature: Signature)
    requires k < |gs|
    ensures var r := gs[k := gs[k].(signature := signature)];
            Flat(r) == Flat(gs) && Keys(r) == Keys(gs) && (WellFormed(gs) ==> WellFormed(r)) && Shrinks(r, gs)
    decreases k
  {
    var r := gs[k := gs[k].(signature := signature)];
    if k == 0 {
      assert r[1..] == gs[1..];
      ShrinksRefl(gs[1..]);
      SubseqRefl(gs[0].ops);
    } else {
      SignedGroups(gs[1..], k - 1, signature);
      assert r[1..] == gs[1..][k - 1 := gs[1..][k - 1].(signature := signature)];
      SubseqRefl(gs[0].ops);
    }
  }
}
