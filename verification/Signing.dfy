/** Aggregating the signatures of several groups: all requests go out first, the answers
    are applied one after the other. */
module Signing {
  import opened Primitives
  import opened UserOps
  import opened Proposal
  import opened Rejections
  import opened Positions
  import opened Rounds
  import opened ProposalState

  function OpsUnder(gs: seq<Group>, key: Address): Option<seq<Op>> {
    var g := GroupAt(gs, key);
    if g.Some? then Some(g.value.ops) else None
  }

  function ResignAll(c: Context, keys: seq<Address>, sign: Signer): (r: Context) {
    if keys == [] then c else Resign(ResignAll(c, keys[..|keys| - 1], sign), keys[|keys| - 1], sign)
  }

  lemma {:induction false} ResignAllKeeps(c: Context, keys: seq<Address>, sign: Signer)
    requires Ok(c)
    ensures Rejects(c, ResignAll(c, keys, sign))
    decreases |keys|
  {
    if keys == [] {
      RejectsRefl(c);
    } else {
      var n := |keys| - 1;
      ResignAllKeeps(c, keys[..n], sign);
      ResignKeeps(ResignAll(c, keys[..n], sign), keys[n], sign);
      RejectsTrans(c, ResignAll(c, keys[..n], sign), ResignAll(c, keys, sign));
    }
  }

  lemma {:induction false} OpsUnderSigned(gs: seq<Group>, k: nat, signature: Signature, key: Address)
    requires k < |gs|
    ensures OpsUnder(gs[k := gs[k].(signature := signature)], key) == OpsUnder(gs, key)
    decreases k
  {
    var r := gs[k := gs[k].(signature := signature)];
    if k > 0 && gs[0].key != key {
      OpsUnderSigned(gs[1..], k - 1, signature, key);
      assert r[1..] == gs[1..][k - 1 := gs[1..][k - 1].(signature := signature)];
    } else if gs[0].key != key {
      assert r[1..] == gs[1..];
    }
  }

  lemma {:induction false} OpsUnderPurge(gs: seq<Group>, gone: Address, key: Address)
    requires WellFormed(gs) && gone != ZERO && gone != key
    ensures OpsUnder(Purge(gs, Entity(Aggregator, gone)), key) == OpsUnder(gs, key)
    decreases |gs|
  {
    if gs != [] {
      var entity := Entity(Aggregator, gone);
      var rest := Purge(gs[1..], entity);
      OpsUnderPurge(gs[1..], gone, key);
      PurgeHead(gs[0], gone);
      if gs[0].key == gone {
        assert [] + rest == rest;
      } else {
        OpsUnderCons(gs[0], rest, key);
      }
    }
  }

  lemma PurgeHead(g: Group, gone: Address)
    requires GroupOk(g) && gone != ZERO
    ensures PurgeGroup(g, Entity(Aggregator, gone)) == if g.key == gone then [] else [g]
  {
    if g.key == gone {
      AllSelected(g.ops, Entity(Aggregator, gone));
    } else {
      NoneSelected(g.ops, Entity(Aggregator, gone));
    }
  }

  lemma OpsUnderCons(g: Group, gs: seq<Group>, key: Address)
    ensures OpsUnder([g] + gs, key) == if g.key == key then Some(g.ops) else OpsUnder(gs, key)
  {
    GroupAtCons(g, gs, key);
  }

  /** Signing one group again leaves the operations of every other group as they were when
      the requests went out. */
  lemma OpsUnderResign(c: Context, done: Address, key: Address, sign: Signer)
    requires Ok(c) && done != key
    ensures OpsUnder(Resign(c, done, sign).groups, key) == OpsUnder(c.groups, key)
  {
    var k := Find(c.groups, done);
    if done != ZERO && k < |c.groups| {
      if sign(done, c.groups[k].ops) {
        OpsUnderSigned(c.groups, k, Signed(c.groups[k].ops), key);
      } else {
        OpsUnderPurge(c.groups, done, key);
      }
    }
  }

  lemma ResignFresh(c: Context, key: Address, waiting: set<Address>, sign: Signer)
    requires Ok(c) && key != ZERO && FreshExcept(c.groups, waiting + {key})
    ensures FreshExcept(Resign(c, key, sign).groups, waiting)
  {
    FindUnique(c.groups, key);
    var k := Find(c.groups, key);
    if k < |c.groups| && !sign(key, c.groups[k].ops) {
      PurgeAggregator(c.groups, key, waiting);
    }
  }

  function Waiting(asked: seq<Address>, j: nat): set<Address> {
    set m | j <= m < |asked| :: asked[m]
  }

  /** Once every aggregator present has been asked, every group left is validly signed. */
  lemma {:induction false} ResignAllFresh(c: Context, asked: seq<Address>, sign: Signer, j: nat)
    requires Ok(c) && j <= |asked|
    requires forall m | 0 <= m < |asked| :: asked[m] != ZERO
    requires forall k | 0 <= k < |c.groups| && c.groups[k].key != ZERO :: c.groups[k].key in asked
    ensures FreshExcept(ResignAll(c, asked[..j], sign).groups, Waiting(asked, j))
    decreases j
  {
    if j == 0 {
      AllWaiting(c.groups, asked);
    } else {
      var c' := ResignAll(c, asked[..j - 1], sign);
      ResignAllFresh(c, asked, sign, j - 1);
      ResignAllKeeps(c, asked[..j - 1], sign);
      assert asked[..j][..j - 1] == asked[..j - 1];
      OneAnswered(asked, j);
      ResignFresh(c', asked[j - 1], Waiting(asked, j), sign);
    }
  }

  lemma AllWaiting(gs: seq<Group>, asked: seq<Address>)
    requires forall k | 0 <= k < |gs| && gs[k].key != ZERO :: gs[k].key in asked
    ensures FreshExcept(gs, Waiting(asked, 0))
  {
    forall k | 0 <= k < |gs| && gs[k].key != ZERO ensures gs[k].key in Waiting(asked, 0) {
      var m :| 0 <= m < |asked| && asked[m] == gs[k].key;
    }
  }

  lemma OneAnswered(asked: seq<Address>, j: nat)
    requires 0 < j <= |asked|
    ensures Waiting(asked, j - 1) == Waiting(asked, j) + {asked[j - 1]}
  {
  }

  /** The groups whose answers are still to be applied have the operations they were asked
      about. */
  predicate Pending(gs: seq<Group>, start: seq<Group>, asked: seq<Address>, j: nat) {
    forall m | j <= m < |asked| :: OpsUnder(gs, asked[m]) == OpsUnder(start, asked[m])
  }

  lemma PendingStep(c: Context, start: seq<Group>, asked: seq<Address>, j: nat, sign: Signer)
    requires Ok(c) && Distinct(asked) && j < |asked| && Pending(c.groups, start, asked, j)
    ensures Pending(Resign(c, asked[j], sign).groups, start, asked, j + 1)
  {
    forall m | j < m < |asked|
      ensures OpsUnder(Resign(c, asked[j], sign).groups, asked[m]) == OpsUnder(start, asked[m])
    {
      OpsUnderResign(c, asked[j], asked[m], sign);
    }
  }

  /** No answer is applied to a group that is gone by then, and the result is that of
      signing the groups one at a time. */
  method ComputeAggregatorSignatures(ctx: ProposalContext, keys: seq<Address>, sign: Signer)
    returns (asked: seq<Address>)
    requires ctx.Valid() && Distinct(keys)
    modifies ctx, ctx.storage
    ensures asked == Asked(old(ctx.groups), keys)
    ensures ctx.Valid() && ctx.Value() == ResignAll(old(ctx.Value()), asked, sign)
    ensures forall m | 0 <= m < |asked| :: asked[m] != ZERO
    ensures forall key | key in keys && key != ZERO && OpsUnder(old(ctx.groups), key).Some? :: key in asked
  {
    var answers: seq<bool>;
    asked, answers := Ask(ctx.groups, keys, sign);
    AskedDistinct(ctx.groups, keys);
    AskedAll(ctx.groups, keys);
    ApplyAnswers(ctx, asked, answers, sign);
  }

  lemma AskedAll(gs: seq<Group>, keys: seq<Address>)
    ensures forall m | 0 <= m < |Asked(gs, keys)| :: Asked(gs, keys)[m] != ZERO
    ensures forall key | key in keys && key != ZERO && OpsUnder(gs, key).Some? :: key in Asked(gs, keys)
  {
    forall key ensures key in Asked(gs, keys) <==> key in keys && key != ZERO && OpsUnder(gs, key).Some? {
      AskedExactly(gs, keys, key);
    }
  }

  /** What each aggregator answers about the operations of its group. */
  predicate Answered(gs: seq<Group>, asked: seq<Address>, answers: seq<bool>, sign: Signer) {
    && |answers| == |asked|
    && forall m | 0 <= m < |asked| ::
         && asked[m] != ZERO && OpsUnder(gs, asked[m]).Some?
         && answers[m] == sign(asked[m], OpsUnder(gs, asked[m]).value)
  }

  method ApplyAnswers(ctx: ProposalContext, asked: seq<Address>, answers: seq<bool>, sign: Signer)
    requires ctx.Valid() && Distinct(asked) && Answered(ctx.groups, asked, answers, sign)
    modifies ctx, ctx.storage
    ensures ctx.Valid() && ctx.Value() == ResignAll(old(ctx.Value()), asked, sign)
  {
    ghost var c0 := ctx.Value();
    for j := 0 to |asked|
      invariant ctx.Valid() && ctx.Value() == ResignAll(c0, asked[..j], sign)
      invariant Pending(ctx.groups, c0.groups, asked, j)
    {
      ApplyAnswer(ctx, asked, answers, j, sign, c0);
    }
    assert asked[..|asked|] == asked;
  }

  method ApplyAnswer(ctx: ProposalContext, asked: seq<Address>, answers: seq<bool>, j: nat, sign: Signer,
                     ghost c0: Context)
    requires ctx.Valid() && Distinct(asked) && j < |asked| && Answered(c0.groups, asked, answers, sign)
    requires ctx.Value() == ResignAll(c0, asked[..j], sign) && Pending(ctx.groups, c0.groups, asked, j)
    modifies ctx, ctx.storage
    ensures ctx.Valid() && ctx.Value() == ResignAll(c0, asked[..j + 1], sign)
    ensures Pending(ctx.groups, c0.groups, asked, j + 1)
  {
    PendingStep(ctx.Value(), c0.groups, asked, j, sign);
    assert OpsUnder(ctx.groups, asked[j]) == OpsUnder(c0.groups, asked[j]);
    ctx.ApplySignature(asked[j], answers[j], sign);
    assert asked[..j + 1][..j] == asked[..j];
  }

  /** Who is asked: the aggregators among the keys that have a group. */
  function Asked(gs: seq<Group>, keys: seq<Address>): (r: seq<Address>) {
    if keys == [] then []
    else
      var key := keys[|keys| - 1];
      Asked(gs, keys[..|keys| - 1]) + if key != ZERO && Find(gs, key) < |gs| then [key] else []
  }

  lemma {:induction false} AskedExactly(gs: seq<Group>, keys: seq<Address>, key: Address)
    ensures key in Asked(gs, keys) <==> key in keys && key != ZERO && OpsUnder(gs, key).Some?
    decreases |keys|
  {
    if keys != [] {
      AskedExactly(gs, keys[..|keys| - 1], key);
      assert keys == keys[..|keys| - 1] + [keys[|keys| - 1]];
    }
  }

  lemma {:induction false} AskedDistinct(gs: seq<Group>, keys: seq<Address>)
    requires Distinct(keys)
    ensures Distinct(Asked(gs, keys))
    decreases |keys|
  {
    if keys != [] {
      AskedDistinct(gs, keys[..|keys| - 1]);
      AskedExactly(gs, keys[..|keys| - 1], keys[|keys| - 1]);
    }
  }

  method Ask(gs: seq<Group>, keys: seq<Address>, sign: Signer) returns (asked: seq<Address>, answers: seq<bool>)
    ensures asked == Asked(gs, keys) && Answered(gs, asked, answers, sign)
  {
    asked, answers := [], [];
    for i := 0 to |keys|
      invariant asked == Asked(gs, keys[..i]) && Answered(gs, asked, answers, sign)
    {
      var k := Find(gs, keys[i]);
      if keys[i] != ZERO && k < |gs| {
        asked, answers := asked + [keys[i]], answers + [sign(keys[i], gs[k].ops)];
      }
      assert keys[..i + 1][..i] == keys[..i];
    }
    assert keys[..|keys|] == keys;
  }

  /** Rejects one operation by position and has its group signed again. */
  method RejectIndexAndSign(ctx: ProposalContext, i: nat, amendment: bool, sign: Signer)
    requires ctx.Valid() && i < |Flat(ctx.groups)|
    modifies ctx, ctx.storage
    ensures ctx.Valid() && ctx.Value() == RejectAndSign(old(ctx.Value()), i, amendment, sign)
    ensures Rejects(old(ctx.Value()), ctx.Value())
  {
    RejectAndSignEffect(ctx.Value(), i, amendment, sign);
    var changed := ctx.RejectIndex(i, amendment);
    if changed.Some? {
      var k := Find(ctx.groups, changed.value);
      if changed.value != ZERO && k < |ctx.groups| {
        ctx.ApplySignature(changed.value, sign(changed.value, ctx.groups[k].ops), sign);
      }
    }
  }
}
