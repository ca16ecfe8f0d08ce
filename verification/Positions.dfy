/** When rejecting a list of positions rejects exactly the operations that stood there,
    and when a rejection leaves every aggregated signature valid. */
module Positions {
  import opened Primitives
  import opened Lists
  import opened UserOps
  import opened Proposal
  import opened Rejections
  import opened Rounds

  predicate Ascending(positions: seq<nat>, lo: nat, hi: nat) {
    && (forall i | 0 <= i < |positions| :: lo <= positions[i] < hi)
    && (forall i, j | 0 <= i < j < |positions| :: positions[i] < positions[j])
  }

  function Elements(positions: seq<nat>): (r: set<nat>) {
    set i | 0 <= i < |positions| :: positions[i]
  }

  lemma AscendingConcat(a: seq<nat>, b: seq<nat>, lo: nat, mid: nat, hi: nat)
    requires Ascending(a, lo, mid) && Ascending(b, mid, hi) && lo <= mid <= hi
    ensures Ascending(a + b, lo, hi)
  {
  }

  lemma {:induction false} RangeAscending(lo: nat, hi: nat, flagged: set<nat>)
    requires lo <= hi
    ensures Ascending(Range(lo, hi), lo, hi) && Ascending(FlaggedIn(lo, hi, flagged), lo, hi)
    decreases hi - lo
  {
    if lo < hi {
      RangeAscending(lo + 1, hi, flagged);
      AscendingConcat([lo], Range(lo + 1, hi), lo, lo + 1, hi);
      AscendingConcat(if lo in flagged then [lo] else [], FlaggedIn(lo + 1, hi, flagged), lo, lo + 1, hi);
    }
  }

  lemma GroupAscending(g: Group, start: nat, flagged: set<nat>)
    ensures Ascending(GroupPositions(g, start, flagged), start, start + |g.ops|)
  {
    RangeAscending(start, start + |g.ops|, flagged);
  }

  lemma {:induction false} PostOpPositionsAscending(gs: seq<Group>, start: nat, flagged: set<nat>)
    ensures Ascending(PostOpPositions(gs, start, flagged), start, start + |Flat(gs)|)
    decreases |gs|
  {
    if gs != [] {
      var mid := start + |gs[0].ops|;
      PostOpPositionsAscending(gs[1..], mid, flagged);
      GroupAscending(gs[0], start, flagged);
      assert mid + |Flat(gs[1..])| == start + |Flat(gs)|;
      AscendingConcat(GroupPositions(gs[0], start, flagged), PostOpPositions(gs[1..], mid, flagged),
                      start, mid, start + |Flat(gs)|);
    }
  }

  /** The list of positions to reject after a post-operation revert is strictly ascending
      and within the bundle, whatever the re-checks answered. */
  lemma PostOpRejectionsAscending(gs: seq<Group>, flagged: set<nat>)
    ensures Ascending(PostOpRejections(gs, flagged), 0, |Flat(gs)|)
  {
    PostOpPositionsAscending(gs, 0, flagged);
    RangeAscending(0, |Flat(gs)|, flagged);
  }

  // ---------------------------------------------------------------- last to first

  /** Every aggregation the removal asks for succeeds. */
  predicate Resigns(c: Context, positions: seq<nat>, sign: Signer)
    decreases |positions|
  {
    positions == [] ||
    var n := |positions| - 1;
    var i := positions[n];
    i < |Flat(c.groups)| && SignOk(TakeOut(c.groups, i), KeyOf(Flat(c.groups)[i]), sign) &&
    Resigns(RejectAndSign(c, i, true, sign), positions[..n], sign)
  }

  lemma {:induction false} ElementsLast(positions: seq<nat>, hi: nat)
    requires positions != [] && Ascending(positions, 0, hi)
    ensures var n := |positions| - 1;
            && Elements(positions) - {positions[n]} == Elements(positions[..n])
            && positions[n] in Elements(positions)
            && (forall j | j in Elements(positions) :: j <= positions[n] < hi)
            && Ascending(positions[..n], 0, positions[n])
  {
    var n := |positions| - 1;
    forall j | j in Elements(positions) - {positions[n]} ensures j in Elements(positions[..n]) {
      var i :| 0 <= i < |positions| && positions[i] == j;
      assert positions[..n][i] == j;
    }
    forall j | j in Elements(positions[..n]) ensures j in Elements(positions) - {positions[n]} {
      var i :| 0 <= i < n && positions[..n][i] == j;
      assert positions[i] == j;
    }
  }

  lemma {:induction false} ElementsSize(positions: seq<nat>, hi: nat)
    requires Ascending(positions, 0, hi)
    ensures |Elements(positions)| == |positions|
    decreases |positions|
  {
    if positions != [] {
      var n := |positions| - 1;
      ElementsLast(positions, hi);
      ElementsSize(positions[..n], positions[n]);
      assert Elements(positions) == Elements(positions[..n]) + {positions[n]};
    }
  }

  /** Rejecting from last to first never runs off the end and removes exactly the listed
      operations, in every bundle, if and only if every group that is touched and survives
      can be aggregated again. */
  lemma {:induction false} DescendExact(c: Context, positions: seq<nat>, sign: Signer)
    requires Ok(c) && Ascending(positions, 0, |Flat(c.groups)|)
    ensures (var r := Descend(c, positions, sign);
             r.Retry? && Flat(r.context.groups) == RemovePositions(Flat(c.groups), Elements(positions)))
            <==> Resigns(c, positions, sign)
    decreases |positions|
  {
    var ops := Flat(c.groups);
    if positions == [] {
      RemoveNoPositions(ops, Elements(positions));
    } else {
      var n := |positions| - 1;
      var i := positions[n];
      var c' := RejectAndSign(c, i, true, sign);
      RejectAndSignEffect(c, i, true, sign);
      ElementsLast(positions, |ops|);
      if SignOk(TakeOut(c.groups, i), KeyOf(ops[i]), sign) {
        DescendExact(c', positions[..n], sign);
        RemoveLargestFirst(ops, Elements(positions), i);
      } else {
        DescendKeeps(c', positions[..n], sign);
        ElementsSize(positions, |ops|);
        RemovePositionsLength(ops, Elements(positions));
      }
    }
  }

  /** After a post-operation revert exactly the operations found guilty go, whatever the
      re-checks answered, if and only if every group that is touched and survives for a while
      can be aggregated again. */
  lemma PostOpExact(c: Context, flagged: set<nat>, sign: Signer)
    requires Ok(c)
    ensures var guilty := PostOpRejections(c.groups, flagged);
            (var r := React(c, PostOpRevert(flagged), sign);
             r.Retry? && Flat(r.context.groups) == RemovePositions(Flat(c.groups), Elements(guilty)))
            <==> Resigns(c, guilty, sign)
  {
    PostOpRejectionsAscending(c.groups, flagged);
    DescendExact(c, PostOpRejections(c.groups, flagged), sign);
  }

  /** For instance, if the first group is guilty and cannot be aggregated without its last
      operation, the group goes at once, and its other positions are then those of the
      operations after it. */
  lemma PostOpPurges(c: Context, g: Group, rest: seq<Group>, sign: Signer)
    requires Ok(c) && c.groups == [g] + rest && g.key != ZERO && |g.ops| >= 2
    requires !sign(g.key, RemoveAt(g.ops, |g.ops| - 1))
    ensures var others := |g.ops| - 1;
            var r := React(c, PostOpRevert({0}), sign);
            && (others > |Flat(rest)| ==> r.Failed?)
            && (r.Retry? ==> |Flat(r.context.groups)| + others <= |Flat(rest)|)
  {
    var n := |g.ops| - 1;
    PostOpFirst(c, g, rest, sign);
    RejectAndSignEffect(c, n, true, sign);
    PurgeSpoiled(c, g, rest, sign);
    DescendKeeps(RejectAndSign(c, n, true, sign), Range(0, n), sign);
    RangeAt(0, n);
  }

  /** A guilty first group loses its last operation first. */
  lemma PostOpFirst(c: Context, g: Group, rest: seq<Group>, sign: Signer)
    requires c.groups == [g] + rest && g.key != ZERO && g.ops != []
    ensures var n := |g.ops| - 1;
            && n < |Flat(c.groups)|
            && React(c, PostOpRevert({0}), sign) == Descend(RejectAndSign(c, n, true, sign), Range(0, n), sign)
  {
    FlatCons(g, rest);
    FirstGuilty(g, rest);
    RangeSplit(|g.ops| - 1);
  }

  lemma RangeSplit(n: nat)
    ensures Range(0, n + 1) == Range(0, n) + [n] && |Range(0, n)| == n
    ensures Range(0, n + 1)[..n] == Range(0, n)
  {
    RangeAt(0, n);
    RangeAt(0, n + 1);
  }

  /** Only the first group is guilty if its first position is flagged, and no other. */
  lemma FirstGuilty(g: Group, rest: seq<Group>)
    requires g.key != ZERO && g.ops != []
    ensures PostOpRejections([g] + rest, {0}) == Range(0, |g.ops|)
  {
    assert ([g] + rest)[1..] == rest;
    NoneFlagged(rest, |g.ops|);
  }

  lemma {:induction false} NoneFlagged(gs: seq<Group>, start: nat)
    requires start > 0
    ensures PostOpPositions(gs, start, {0}) == []
    decreases |gs|
  {
    if gs != [] {
      NoneFlagged(gs[1..], start + |gs[0].ops|);
      NoneFlaggedIn(start, start + |gs[0].ops|);
    }
  }

  lemma {:induction false} NoneFlaggedIn(lo: nat, hi: nat)
    requires lo > 0
    ensures FlaggedIn(lo, hi, {0}) == []
    decreases hi - lo
  {
    if lo < hi { NoneFlaggedIn(lo + 1, hi); }
  }

  /** A group that cannot be aggregated any more goes as a whole. */
  lemma PurgeSpoiled(c: Context, g: Group, rest: seq<Group>, sign: Signer)
    requires Ok(c) && c.groups == [g] + rest && g.key != ZERO && |g.ops| >= 2
    requires !sign(g.key, RemoveAt(g.ops, |g.ops| - 1)) && |g.ops| - 1 < |Flat(c.groups)|
    ensures RejectAndSign(c, |g.ops| - 1, true, sign).groups == rest
  {
    var n := |g.ops| - 1;
    var g' := g.(ops := RemoveAt(g.ops, n));
    TakeOutHead(g, rest, n);
    assert ([g] + rest)[1..] == rest && Find([g'] + rest, g.key) == 0;
    PurgeOwnGroup(g', rest);
  }

  lemma PurgeOwnGroup(g: Group, rest: seq<Group>)
    requires GroupOk(g) && g.key != ZERO && WellFormed(rest) && g.key !in Keys(rest)
    ensures Purge([g] + rest, Entity(Aggregator, g.key)) == rest
  {
    var entity := Entity(Aggregator, g.key);
    assert ([g] + rest)[1..] == rest;
    AllSelected(g.ops, entity);
    OthersUnselected(rest, g.key);
    PurgeNothing(rest, entity);
    assert Purge([g] + rest, entity) == PurgeGroup(g, entity) + rest == rest;
  }

  lemma {:induction false} OthersUnselected(gs: seq<Group>, key: Address)
    requires WellFormed(gs) && key !in Keys(gs) && key != ZERO
    ensures forall i | 0 <= i < |Flat(gs)| :: !Selects(Entity(Aggregator, key), Flat(gs)[i])
    decreases |gs|
  {
    if gs != [] { OthersUnselected(gs[1..], key); }
  }

  // ---------------------------------------------------------------- first to last

  predicate ResignsAscending(c: Context, positions: seq<nat>, sign: Signer)
    decreases |positions|
  {
    positions == [] || positions[0] >= |Flat(c.groups)| ||
    (SignOk(TakeOut(c.groups, positions[0]), KeyOf(Flat(c.groups)[positions[0]]), sign) &&
     ResignsAscending(RejectAndSign(c, positions[0], false, sign), positions[1..], sign))
  }

  /** An operation that stands before every listed position stays where it is. */
  lemma {:induction false} AscendKeepsBefore(c: Context, positions: seq<nat>, sign: Signer, p: nat)
    requires Ok(c) && p < |Flat(c.groups)| && forall i | 0 <= i < |positions| :: p < positions[i]
    requires ResignsAscending(c, positions, sign)
    ensures var r := Ascend(c, positions, sign);
            r.Retry? ==> Flat(c.groups)[p] in Flat(r.context.groups)
    decreases |positions|
  {
    if positions != [] && positions[0] < |Flat(c.groups)| {
      RejectAndSignEffect(c, positions[0], false, sign);
      AscendKeepsBefore(RejectAndSign(c, positions[0], false, sign), positions[1..], sign, p);
    }
  }

  /** Rejecting from first to last spares the second listed operation. */
  lemma {:induction false} SecondSurvives(c: Context, positions: seq<nat>, sign: Signer)
    requires Ok(c) && |positions| >= 2 && Ascending(positions, 0, |Flat(c.groups)|)
    requires ResignsAscending(c, positions, sign)
    ensures var r := Ascend(c, positions, sign);
            r.Retry? ==> Flat(c.groups)[positions[1]] in Flat(r.context.groups)
  {
    var c', p := RejectAndSign(c, positions[0], false, sign), positions[1] - 1;
    RejectAndSignEffect(c, positions[0], false, sign);
    RemoveAtLater(Flat(c.groups), positions[0], positions[1]);
    assert forall i | 0 <= i < |positions[1..]| :: p < positions[1..][i];
    AscendKeepsBefore(c', positions[1..], sign, p);
  }

  /** Every listed position takes at least one operation, and more go as soon as a group
      cannot be aggregated again. */
  lemma {:induction false} AscendCounts(c: Context, positions: seq<nat>, sign: Signer)
    requires Ok(c)
    ensures var r := Ascend(c, positions, sign);
            r.Retry? ==>
              && |Flat(r.context.groups)| + |positions| <= |Flat(c.groups)|
              && (!ResignsAscending(c, positions, sign) ==> |Flat(r.context.groups)| + |positions| < |Flat(c.groups)|)
    decreases |positions|
  {
    if positions != [] && positions[0] < |Flat(c.groups)| {
      RejectAndSignEffect(c, positions[0], false, sign);
      AscendCounts(RejectAndSign(c, positions[0], false, sign), positions[1..], sign);
    }
  }

  predicate NoDuplicates(ops: seq<Op>) {
    forall i, j | 0 <= i < j < |ops| :: ops[i] != ops[j]
  }

  /** Rejecting from first to last removes exactly the listed operations if and only if at
      most one is listed, as every removal shifts the later positions by one, and what is
      left of its group can be aggregated again. */
  lemma {:induction false} AscendExact(c: Context, positions: seq<nat>, sign: Signer)
    requires Ok(c) && NoDuplicates(Flat(c.groups)) && Ascending(positions, 0, |Flat(c.groups)|)
    ensures (var r := Ascend(c, positions, sign);
             r.Retry? && Flat(r.context.groups) == RemovePositions(Flat(c.groups), Elements(positions)))
            <==> |positions| <= 1 && ResignsAscending(c, positions, sign)
  {
    if !ResignsAscending(c, positions, sign) {
      AscendTakesMore(c, positions, sign);
    } else if |positions| >= 2 {
      SecondSurvives(c, positions, sign);
      RemovePositionsMember(Flat(c.groups), Elements(positions), Flat(c.groups)[positions[1]]);
    } else {
      AscendOne(c, positions, sign);
    }
  }

  lemma {:induction false} AscendTakesMore(c: Context, positions: seq<nat>, sign: Signer)
    requires Ok(c) && Ascending(positions, 0, |Flat(c.groups)|) && !ResignsAscending(c, positions, sign)
    ensures var r := Ascend(c, positions, sign);
            r.Retry? ==> Flat(r.context.groups) != RemovePositions(Flat(c.groups), Elements(positions))
  {
    AscendCounts(c, positions, sign);
    ElementsSize(positions, |Flat(c.groups)|);
    RemovePositionsLength(Flat(c.groups), Elements(positions));
  }

  lemma {:induction false} AscendOne(c: Context, positions: seq<nat>, sign: Signer)
    requires Ok(c) && Ascending(positions, 0, |Flat(c.groups)|) && |positions| <= 1
             && ResignsAscending(c, positions, sign)
    ensures var r := Ascend(c, positions, sign);
            r.Retry? && Flat(r.context.groups) == RemovePositions(Flat(c.groups), Elements(positions))
  {
    var ops := Flat(c.groups);
    if positions == [] {
      RemoveNoPositions(ops, Elements(positions));
    } else {
      RejectAndSignEffect(c, positions[0], false, sign);
      assert Elements(positions) == {positions[0]};
      RemoveLargestFirst(ops, Elements(positions), positions[0]);
      RemoveNoPositions(RemoveAt(ops, positions[0]), {});
      assert Elements(positions) - {positions[0]} == {};
    }
  }

  /** Rejecting upwards runs off the end exactly if the last position does, once every
      rejection before it has shifted the bundle by one. */
  lemma {:induction false} AscendFails(c: Context, positions: seq<nat>, sign: Signer)
    requires Ok(c) && (forall i, j | 0 <= i < j < |positions| :: positions[i] < positions[j])
    requires ResignsAscending(c, positions, sign)
    ensures Ascend(c, positions, sign).Failed? <==>
            positions != [] && positions[|positions| - 1] + |positions| - 1 >= |Flat(c.groups)|
    decreases |positions|
  {
    if positions != [] && positions[0] < |Flat(c.groups)| {
      var c', rest := RejectAndSign(c, positions[0], false, sign), positions[1..];
      RejectAndSignEffect(c, positions[0], false, sign);
      AscendFails(c', rest, sign);
      assert rest != [] ==> rest[|rest| - 1] == positions[|positions| - 1];
    }
  }

  /** So two or more operations cannot all be rejected upwards: that ends in an error. */
  lemma AscendAll(c: Context, sign: Signer)
    requires Ok(c) && ResignsAscending(c, Range(0, |Flat(c.groups)|), sign)
    ensures Ascend(c, Range(0, |Flat(c.groups)|), sign).Failed? <==> |Flat(c.groups)| >= 2
  {
    var n := |Flat(c.groups)|;
    RangeAscending(0, n, {});
    RangeAt(0, n);
    AscendFails(c, Range(0, n), sign);
  }

  lemma {:induction false} RangeAt(lo: nat, hi: nat)
    requires lo <= hi
    ensures |Range(lo, hi)| == hi - lo && forall i | 0 <= i < hi - lo :: Range(lo, hi)[i] == lo + i
    decreases hi - lo
  {
    if lo < hi { RangeAt(lo + 1, hi); }
  }

  // ---------------------------------------------------------------- signatures

  /** Some, but not all, of the group's operations belong to the entity. */
  predicate PartlyHit(g: Group, entity: Entity) {
    g.key != ZERO && Selected(g.ops, entity) != [] && Unselected(g.ops, entity) != []
  }

  /** Rejecting an entity leaves every aggregated signature valid if and only if no
      aggregated group loses a part of its operations: such a group is rebuilt unsigned and
      nobody aggregates it again. */
  lemma {:induction false} PurgeFreshness(gs: seq<Group>, entity: Entity)
    requires AllFresh(gs)
    ensures AllFresh(Purge(gs, entity)) <==> forall i | 0 <= i < |gs| :: !PartlyHit(gs[i], entity)
    decreases |gs|
  {
    if gs != [] {
      var rest := Purge(gs[1..], entity);
      var r := Purge(gs, entity);
      PurgeFreshness(gs[1..], entity);
      assert AllFresh(gs[1..]);
      UnselectedAll(gs[0].ops, entity);
      var head := PurgeGroup(gs[0], entity);
      assert AllFresh(r) <==> AllFresh(head) && AllFresh(rest) by { AllFreshConcat(head, rest); }
      assert Fresh(gs[0]);
      assert AllFresh(head) <==> !PartlyHit(gs[0], entity) by {
        if head != [] { assert AllFresh(head) <==> Fresh(head[0]); }
      }
      assert (forall i | 0 <= i < |gs| :: !PartlyHit(gs[i], entity)) <==>
        !PartlyHit(gs[0], entity) && forall i | 0 <= i < |gs[1..]| :: !PartlyHit(gs[1..][i], entity);
    }
  }

  lemma AllFreshConcat(a: seq<Group>, b: seq<Group>)
    ensures AllFresh(a + b) <==> AllFresh(a) && AllFresh(b)
  {
    if AllFresh(a + b) {
      forall i | 0 <= i < |a| ensures Fresh(a[i]) { assert Fresh((a + b)[i]); }
      forall i | 0 <= i < |b| ensures Fresh(b[i]) { assert Fresh((a + b)[|a| + i]); }
    }
  }

  /** Taking out a single position spoils no signature but that of its own group. */
  lemma {:induction false} TakeOutFreshness(gs: seq<Group>, i: nat)
    requires i < |Flat(gs)| && AllFresh(gs) && WellFormed(gs)
    ensures forall k | 0 <= k < |TakeOut(gs, i)| ::
              Fresh(TakeOut(gs, i)[k]) || TakeOut(gs, i)[k].key == KeyOf(Flat(gs)[i])
    decreases |gs|
  {
    var n := |gs[0].ops|;
    if i >= n {
      TakeOutFreshness(gs[1..], i - n);
    } else {
      assert Flat(gs)[i] == gs[0].ops[i];
    }
  }

  lemma {:induction false} AllSelected(ops: seq<Op>, entity: Entity)
    requires forall i | 0 <= i < |ops| :: Selects(entity, ops[i])
    ensures Unselected(ops, entity) == []
    decreases |ops|
  {
    if ops != [] { AllSelected(ops[1..], entity); }
  }

  /** Every group outside `waiting` is validly signed. */
  predicate FreshExcept(gs: seq<Group>, waiting: set<Address>) {
    forall k | 0 <= k < |gs| :: Fresh(gs[k]) || gs[k].key in waiting
  }

  /** Rejecting an aggregator removes its own group and touches no other. */
  lemma {:induction false} PurgeAggregator(gs: seq<Group>, key: Address, waiting: set<Address>)
    requires WellFormed(gs) && key != ZERO && FreshExcept(gs, waiting + {key})
    ensures FreshExcept(Purge(gs, Entity(Aggregator, key)), waiting)
    decreases |gs|
  {
    if gs != [] {
      var entity := Entity(Aggregator, key);
      var rest := Purge(gs[1..], entity);
      PurgeAggregator(gs[1..], key, waiting);
      if gs[0].key == key {
        AllSelected(gs[0].ops, entity);
        assert Purge(gs, entity) == rest;
      } else {
        NoneSelected(gs[0].ops, entity);
        assert Purge(gs, entity) == [gs[0]] + rest;
      }
    }
  }

  /** Rejecting a single position and aggregating its group again keeps every signature valid. */
  lemma RejectAndSignFreshness(c: Context, i: nat, amendment: bool, sign: Signer)
    requires Ok(c) && i < |Flat(c.groups)| && AllFresh(c.groups)
    ensures AllFresh(RejectAndSign(c, i, amendment, sign).groups)
  {
    TakeOutFreshness(c.groups, i);
    TakeOutWellFormed(c.groups, i);
    SpoiledResigned(RejectIndex(c, i, amendment), KeyOf(Flat(c.groups)[i]), sign);
  }

  /** Signing the only group whose signature is spoiled, or rejecting it, makes all valid. */
  lemma SpoiledResigned(c: Context, key: Address, sign: Signer)
    requires WellFormed(c.groups) && FreshExcept(c.groups, {key})
    ensures AllFresh(Resign(c, key, sign).groups)
  {
    var k := Find(c.groups, key);
    FindUnique(c.groups, key);
    if key != ZERO && k < |c.groups| && !sign(key, c.groups[k].ops) {
      PurgeAggregator(c.groups, key, {});
    }
  }

  lemma {:induction false} FindUnique(gs: seq<Group>, key: Address)
    requires WellFormed(gs)
    ensures forall j | 0 <= j < |gs| && gs[j].key == key :: j == Find(gs, key)
    decreases |gs|
  {
    if gs != [] {
      FindUnique(gs[1..], key);
      forall j | 0 < j < |gs| ensures gs[j].key in Keys(gs[1..]) { KeysMember(gs[1..], j - 1); }
    }
  }

  lemma {:induction false} KeysMember(gs: seq<Group>, j: nat)
    requires j < |gs|
    ensures gs[j].key in Keys(gs)
    decreases j
  {
    if j > 0 { KeysMember(gs[1..], j - 1); }
  }

  lemma {:induction false} DescendFreshness(c: Context, positions: seq<nat>, sign: Signer)
    requires Ok(c) && AllFresh(c.groups)
    ensures var r := Descend(c, positions, sign); r.Retry? ==> AllFresh(r.context.groups)
    decreases |positions|
  {
    if positions != [] {
      var n := |positions| - 1;
      if positions[n] < |Flat(c.groups)| {
        RejectAndSignFreshness(c, positions[n], true, sign);
        RejectAndSignEffect(c, positions[n], true, sign);
        DescendFreshness(RejectAndSign(c, positions[n], true, sign), positions[..n], sign);
      }
    }
  }

  lemma {:induction false} RejectHashesFreshness(c: Context, hashes: seq<Hash>, sign: Signer)
    requires Ok(c) && AllFresh(c.groups)
    ensures AllFresh(RejectHashes(c, hashes, sign).groups)
    decreases |hashes|
  {
    if hashes != [] {
      var i := IndexOf(Flat(c.groups), hashes[0]);
      if i < |Flat(c.groups)| {
        RejectAndSignFreshness(c, i, false, sign);
        RejectAndSignEffect(c, i, false, sign);
        RejectHashesFreshness(RejectAndSign(c, i, false, sign), hashes[1..], sign);
      } else {
        RejectHashesFreshness(c, hashes[1..], sign);
      }
    }
  }

  /** The entity a round rejects as a whole, if it rejects one. */
  function BlamedEntity(c: Context, answer: Answer): Option<Entity> {
    match answer
    case FailedOp(i, message) =>
      if i >= |Flat(c.groups)| || |message| < 4 then None
      else
        var op, code := Flat(c.groups)[i], message[..4];
        if code in {"AA13", "AA14", "AA15"} then
          if op.factory.Some? then Some(Entity(Factory, op.factory.value)) else None
        else if code in {"AA30", "AA31", "AA33", "AA34"} then
          if op.paymaster.Some? then Some(Entity(Paymaster, op.paymaster.value)) else None
        else None
    case SignatureValidationFailed(aggregator) => Some(Entity(Aggregator, aggregator))
    case _ => None
  }

  /** A round keeps every aggregated signature valid if and only if the entity it rejects,
      if any, does not take a part of an aggregated group. */
  lemma RoundFreshness(c: Context, answer: Answer, sign: Signer)
    requires Ok(c) && AllFresh(c.groups) && !answer.Success? && React(c, answer, sign).Retry?
    ensures AllFresh(React(c, answer, sign).context.groups) <==>
            (BlamedEntity(c, answer).Some? ==>
               forall i | 0 <= i < |c.groups| :: !PartlyHit(c.groups[i], BlamedEntity(c, answer).value))
  {
    match answer
    case FailedOp(index, _) =>
      if BlamedEntity(c, answer).Some? {
        PurgeFreshness(c.groups, BlamedEntity(c, answer).value);
      } else {
        RejectAndSignFreshness(c, index, true, sign);
      }
    case SignatureValidationFailed(aggregator) => PurgeFreshness(c.groups, Entity(Aggregator, aggregator));
    case PostOpRevert(flagged) => DescendFreshness(c, PostOpRejections(c.groups, flagged), sign);
    case Revert(blamed) =>
      RejectAllKeeps(c);
      if blamed.Some? {
        RejectHashesFreshness(c, blamed.value, sign);
        RejectHashesKeeps(c, blamed.value, sign);
        RejectAllKeeps(RejectHashes(c, blamed.value, sign));
      }
  }
}
