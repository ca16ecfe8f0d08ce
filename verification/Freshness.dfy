/** Which signatures of the final bundle are over the operations it sends: exactly those of
    the groups from which a rejected entity did not take operations last. */
module Freshness {
  import opened Primitives
  import opened Lists
  import opened UserOps
  import opened Proposal
  import opened Rejections
  import opened Rounds
  import opened Positions
  import opened BundleGas
  import opened Signing
  import opened Retrying

  function SizeAt(gs: seq<Group>, key: Address): nat {
    var g := GroupAt(gs, key);
    if g.Some? then |g.value.ops| else 0
  }

  predicate FreshAt(gs: seq<Group>, key: Address) {
    var g := GroupAt(gs, key);
    g.Some? ==> Fresh(g.value)
  }

  /** From one list of groups to a later one, the group with this key, if it is still there,
      has lost nothing and is unchanged, or has lost operations; then it is freshly signed or
      not, as said. */
  predicate Evolves(gs: seq<Group>, hs: seq<Group>, key: Address, signed: bool) {
    var g, h := GroupAt(gs, key), GroupAt(hs, key);
    h.Some? ==>
      && g.Some? && |h.value.ops| <= |g.value.ops|
      && (|h.value.ops| == |g.value.ops| ==> h == g)
      && (|h.value.ops| < |g.value.ops| ==> (Fresh(h.value) <==> signed || key == ZERO))
  }

  lemma EvolvesTrans(fs: seq<Group>, gs: seq<Group>, hs: seq<Group>, key: Address, signed: bool)
    requires Evolves(fs, gs, key, signed) && Evolves(gs, hs, key, signed)
    ensures Evolves(fs, hs, key, signed)
  {
  }

  // ---------------------------------------------------------------- rejecting by position

  lemma {:induction false} KeyAbsent(gs: seq<Group>, key: Address)
    requires key !in Keys(gs)
    ensures GroupAt(gs, key) == None
    decreases |gs|
  {
    if gs != [] { KeyAbsent(gs[1..], key); }
  }

  /** Taking out a position changes only the group of its operation, which loses one. */
  lemma {:induction false} TakeOutAtKey(gs: seq<Group>, i: nat, key: Address)
    requires WellFormed(gs) && i < |Flat(gs)|
    ensures key != KeyOf(Flat(gs)[i]) ==> GroupAt(TakeOut(gs, i), key) == GroupAt(gs, key)
    ensures key == KeyOf(Flat(gs)[i]) ==>
              && GroupAt(gs, key).Some?
              && (GroupAt(TakeOut(gs, i), key).Some? ==> SizeAt(TakeOut(gs, i), key) < SizeAt(gs, key))
    decreases |gs|
  {
    var g, rest := gs[0], gs[1..];
    var n := |g.ops|;
    assert gs == [g] + rest;
    GroupAtCons(g, rest, key);
    if i >= n {
      TakeOutAtKey(rest, i - n, key);
      TakeOutCons(g, rest, i - n);
      GroupAtCons(g, TakeOut(rest, i - n), key);
      FlatMember(rest, i - n);
    } else {
      TakeOutHead(g, rest, i);
      assert KeyOf(g.ops[i]) == g.key;
      KeyAbsent(rest, g.key);
      if n > 1 { GroupAtCons(g.(ops := RemoveAt(g.ops, i)), rest, key); }
    }
  }

  /** The key of an operation is among the keys of the groups. */
  lemma {:induction false} FlatMember(gs: seq<Group>, i: nat)
    requires WellFormed(gs) && i < |Flat(gs)|
    ensures KeyOf(Flat(gs)[i]) in Keys(gs)
    decreases |gs|
  {
    var n := |gs[0].ops|;
    if i >= n { FlatMember(gs[1..], i - n); }
  }

  lemma {:induction false} PurgeAtKey(gs: seq<Group>, entity: Entity, key: Address)
    requires WellFormed(gs)
    ensures var g := GroupAt(gs, key);
            GroupAt(Purge(gs, entity), key) ==
            if g.None? || PurgeGroup(g.value, entity) == [] then None else Some(PurgeGroup(g.value, entity)[0])
    decreases |gs|
  {
    if gs != [] {
      var g, rest := gs[0], gs[1..];
      var purged := Purge(rest, entity);
      PurgeAtKey(rest, entity, key);
      assert gs == [g] + rest;
      GroupAtCons(g, rest, key);
      if g.key == key { KeyAbsent(rest, key); }
      if PurgeGroup(g, entity) == [] {
        assert [] + purged == purged;
      } else {
        GroupAtCons(PurgeGroup(g, entity)[0], purged, key);
      }
    }
  }

  lemma {:induction false} GroupAtOk(gs: seq<Group>, key: Address)
    requires WellFormed(gs) && GroupAt(gs, key).Some?
    ensures GroupOk(GroupAt(gs, key).value)
    decreases |gs|
  {
    if gs[0].key != key { GroupAtOk(gs[1..], key); }
  }

  lemma {:induction false} UpdateAtKey(gs: seq<Group>, k: nat, g: Group, key: Address)
    requires k < |gs| && g.key == gs[k].key && k == Find(gs, g.key)
    ensures GroupAt(gs[k := g], key) == if key == g.key then Some(g) else GroupAt(gs, key)
    decreases k
  {
    var r := gs[k := g];
    if k == 0 {
      assert r == [g] + gs[1..] && gs == [gs[0]] + gs[1..];
      GroupAtCons(g, gs[1..], key);
      GroupAtCons(gs[0], gs[1..], key);
    } else {
      UpdateAtKey(gs[1..], k - 1, g, key);
      assert r == [gs[0]] + gs[1..][k - 1 := g] && gs == [gs[0]] + gs[1..];
      GroupAtCons(gs[0], gs[1..][k - 1 := g], key);
      GroupAtCons(gs[0], gs[1..], key);
    }
  }

  /** Signing a group again leaves the others alone; what is left of it is freshly signed. */
  lemma {:induction false} ResignAtKey(c: Context, done: Address, sign: Signer, key: Address)
    requires Ok(c)
    ensures var gs, hs := c.groups, Resign(c, done, sign).groups;
            && (key != done || done == ZERO ==> GroupAt(hs, key) == GroupAt(gs, key))
            && (key == done && GroupAt(hs, key).Some? ==>
                FreshAt(hs, key) && GroupAt(gs, key).Some? && SizeAt(hs, key) == SizeAt(gs, key))
  {
    var k := Find(c.groups, done);
    if done != ZERO && k < |c.groups| {
      if sign(done, c.groups[k].ops) {
        UpdateAtKey(c.groups, k, c.groups[k].(signature := Signed(c.groups[k].ops)), key);
      } else {
        PurgeAtKey(c.groups, Entity(Aggregator, done), key);
        if GroupAt(c.groups, key).Some? {
          GroupAtOk(c.groups, key);
          PurgeHead(GroupAt(c.groups, key).value, done);
        }
      }
    }
  }

  lemma RejectAndSignEvolves(c: Context, i: nat, amendment: bool, sign: Signer, key: Address)
    requires Ok(c) && i < |Flat(c.groups)|
    ensures Evolves(c.groups, RejectAndSign(c, i, amendment, sign).groups, key, true)
  {
    RejectIndexKeeps(c, i, amendment);
    TakeOutAtKey(c.groups, i, key);
    ResignAtKey(RejectIndex(c, i, amendment), KeyOf(Flat(c.groups)[i]), sign, key);
  }

  lemma {:induction false} DescendEvolves(c: Context, positions: seq<nat>, sign: Signer, key: Address)
    requires Ok(c)
    ensures var r := Descend(c, positions, sign); r.Retry? ==> Evolves(c.groups, r.context.groups, key, true)
    decreases |positions|
  {
    if positions != [] {
      var n := |positions| - 1;
      if positions[n] < |Flat(c.groups)| {
        var c' := RejectAndSign(c, positions[n], true, sign);
        RejectAndSignEvolves(c, positions[n], true, sign, key);
        RejectAndSignEffect(c, positions[n], true, sign);
        DescendEvolves(c', positions[..n], sign, key);
        var r := Descend(c, positions, sign);
        if r.Retry? { EvolvesTrans(c.groups, c'.groups, r.context.groups, key, true); }
      }
    }
  }

  lemma {:induction false} AscendEvolves(c: Context, positions: seq<nat>, sign: Signer, key: Address)
    requires Ok(c)
    ensures var r := Ascend(c, positions, sign); r.Retry? ==> Evolves(c.groups, r.context.groups, key, true)
    decreases |positions|
  {
    if positions != [] && positions[0] < |Flat(c.groups)| {
      var c' := RejectAndSign(c, positions[0], false, sign);
      RejectAndSignEvolves(c, positions[0], false, sign, key);
      RejectAndSignEffect(c, positions[0], false, sign);
      AscendEvolves(c', positions[1..], sign, key);
      var r := Ascend(c, positions, sign);
      if r.Retry? { EvolvesTrans(c.groups, c'.groups, r.context.groups, key, true); }
    }
  }

  lemma {:induction false} RejectHashesEvolves(c: Context, hashes: seq<Hash>, sign: Signer, key: Address)
    requires Ok(c)
    ensures Evolves(c.groups, RejectHashes(c, hashes, sign).groups, key, true)
    decreases |hashes|
  {
    if hashes != [] {
      var i := IndexOf(Flat(c.groups), hashes[0]);
      if i < |Flat(c.groups)| {
        var c' := RejectAndSign(c, i, false, sign);
        RejectAndSignEvolves(c, i, false, sign, key);
        RejectAndSignEffect(c, i, false, sign);
        RejectHashesEvolves(c', hashes[1..], sign, key);
        EvolvesTrans(c.groups, c'.groups, RejectHashes(c, hashes, sign).groups, key, true);
      } else {
        RejectHashesEvolves(c, hashes[1..], sign, key);
      }
    }
  }

  // ---------------------------------------------------------------- one round

  /** An entity takes operations without a new signature. */
  lemma RejectEntityEvolves(c: Context, entity: Entity, isStaked: bool, key: Address)
    requires Ok(c)
    ensures Evolves(c.groups, RejectEntity(c, entity, isStaked).groups, key, false)
  {
    PurgeAtKey(c.groups, entity, key);
    if GroupAt(c.groups, key).Some? { SelectedSplitsLength(GroupAt(c.groups, key).value.ops, entity); }
  }

  /** What a round leaves of a group that loses operations is freshly signed exactly if the
      round did not reject an entity; a group that loses none stays as it is. */
  lemma RoundEvolves(c: Context, answer: Answer, sign: Signer, key: Address)
    requires Ok(c) && !answer.Success? && React(c, answer, sign).Retry?
    ensures Evolves(c.groups, React(c, answer, sign).context.groups, key, BlamedEntity(c, answer).None?)
  {
    match answer
    case FailedOp(index, message) =>
      var op, code := Flat(c.groups)[index], message[..4];
      if BlamedEntity(c, answer).None? {
        RejectAndSignEvolves(c, index, true, sign, key);
      } else if code in {"AA13", "AA14", "AA15"} {
        RejectEntityEvolves(c, Entity(Factory, op.factory.value), IsStaked(op.infos.factory), key);
      } else {
        RejectEntityEvolves(c, Entity(Paymaster, op.paymaster.value), IsStaked(op.infos.paymaster), key);
      }
    case SignatureValidationFailed(aggregator) => RejectEntityEvolves(c, Entity(Aggregator, aggregator), true, key);
    case PostOpRevert(flagged) => DescendEvolves(c, PostOpRejections(c.groups, flagged), sign, key);
    case Revert(blamed) =>
      RejectAllKeeps(c);
      if blamed.Some? {
        RejectHashesKeeps(c, blamed.value, sign);
        RejectHashesEvolves(c, blamed.value, sign, key);
        RejectAllKeeps(RejectHashes(c, blamed.value, sign));
      }
  }

  // ---------------------------------------------------------------- all rounds

  /** Whether the last round that took operations from the group, if there is one, did not
      reject an entity; otherwise as said. */
  predicate SignedLast(c: Context, key: Address, signed: bool, spec: ChainSpec, isV06: bool, world: World)
    requires Ok(c) && Supported(c.groups, spec)
    decreases |Flat(c.groups)|
  {
    if !Refuses(c, spec, isV06, world) || Round(c, world).Failed? || BlamesAbsent(c, world) then signed
    else
      RoundKeeps(c, spec, world);
      var c' := Round(c, world).context;
      var last := if SizeAt(c'.groups, key) == SizeAt(c.groups, key) then signed
                  else BlamedEntity(c, world.handleOps(c.groups)).None?;
      SignedLast(c', key, last, spec, isV06, world)
  }

  /** A group of the accepted bundle is freshly signed if and only if the last round that
      took operations from it did not reject an entity. */
  lemma {:induction false} RetriesFreshness(c: Context, key: Address, signed: bool, spec: ChainSpec, isV06: bool,
                                            world: World)
    requires Ok(c) && Supported(c.groups, spec) && key != ZERO && Retries(c, spec, isV06, world).Done?
    requires GroupAt(c.groups, key).Some? ==> (FreshAt(c.groups, key) <==> signed)
    ensures var end := Retries(c, spec, isV06, world).ctx.groups;
            GroupAt(end, key).Some? ==> (FreshAt(end, key) <==> SignedLast(c, key, signed, spec, isV06, world))
    decreases |Flat(c.groups)|
  {
    if Refuses(c, spec, isV06, world) {
      var c', answer := Round(c, world).context, world.handleOps(c.groups);
      RoundKeeps(c, spec, world);
      RoundEvolves(c, answer, world.sign, key);
      var last := if SizeAt(c'.groups, key) == SizeAt(c.groups, key) then signed else BlamedEntity(c, answer).None?;
      RetriesFreshness(c', key, last, spec, isV06, world);
    }
  }

  // ---------------------------------------------------------------- the bundle

  /** The bundle that the rounds accepted, before conditions are checked. */
  function AcceptedGroups(c: Context, spec: ChainSpec, isV06: bool, world: World): seq<Group>
    requires Ok(c) && Supported(c.groups, spec) && Retries(c, spec, isV06, world).Done?
  {
    Retries(c, spec, isV06, world).ctx.groups
  }

  /** The last operations a group lost, it lost to a check of conditions or to a round that
      did not reject an entity. */
  predicate LastSigned(end: seq<Group>, key: Address, c: Context, spec: ChainSpec, isV06: bool, world: World)
    requires Ok(c) && Supported(c.groups, spec) && Retries(c, spec, isV06, world).Done?
  {
    || SizeAt(end, key) < SizeAt(AcceptedGroups(c, spec, isV06, world), key)
    || SignedLast(c, key, true, spec, isV06, world)
  }

  lemma GroupAtIndex(gs: seq<Group>, k: nat)
    requires WellFormed(gs) && k < |gs|
    ensures GroupAt(gs, gs[k].key) == Some(gs[k])
  {
    FindUnique(gs, gs[k].key);
  }

  lemma {:induction false} ConcludedAt(c: Context, key: Address, spec: ChainSpec, isV06: bool, notified: bool,
                                       world: World)
    requires Ok(c) && Supported(c.groups, spec) && AllFresh(c.groups) && key != ZERO
    requires Conclude(c, spec, isV06, notified, world).Done?
    ensures var end := Conclude(c, spec, isV06, notified, world).ctx.groups;
            GroupAt(end, key).Some? ==> (FreshAt(end, key) <==> LastSigned(end, key, c, spec, isV06, world))
  {
    var r := Retries(c, spec, isV06, world);
    RetriesFreshness(c, key, true, spec, isV06, world);
    RetriesAccepted(c, spec, isV06, world);
    if notified { AscendEvolves(r.ctx, world.unmet(Flat(r.ctx.groups)), world.sign, key); }
  }

  /** Started from fresh signatures, the bundle the rounds come to has only fresh signatures if
      and only if none of its aggregated groups lost operations last to a rejected entity. */
  lemma {:induction false} BundleFreshness(c: Context, spec: ChainSpec, isV06: bool, notified: bool, world: World)
    requires Ok(c) && Supported(c.groups, spec) && AllFresh(c.groups) && Conclude(c, spec, isV06, notified, world).Done?
    ensures var end := Conclude(c, spec, isV06, notified, world).ctx.groups;
            AllFresh(end) <==>
            forall k | 0 <= k < |end| && end[k].key != ZERO :: LastSigned(end, end[k].key, c, spec, isV06, world)
  {
    var end := Conclude(c, spec, isV06, notified, world).ctx.groups;
    var _ := Concluded(c, spec, isV06, notified, world);
    forall k | 0 <= k < |end| && end[k].key != ZERO
      ensures Fresh(end[k]) <==> LastSigned(end, end[k].key, c, spec, isV06, world)
    {
      GroupAtIndex(end, k);
      ConcludedAt(c, end[k].key, spec, isV06, notified, world);
    }
  }

  /** No round rejects an entity that has a part of an aggregated group. */
  predicate NeverPartlyHit(c: Context, spec: ChainSpec, isV06: bool, world: World)
    requires Ok(c) && Supported(c.groups, spec)
    decreases |Flat(c.groups)|
  {
    if !Refuses(c, spec, isV06, world) || Round(c, world).Failed? || BlamesAbsent(c, world) then true
    else
      RoundKeeps(c, spec, world);
      var blamed := BlamedEntity(c, world.handleOps(c.groups));
      && (blamed.Some? ==> forall i | 0 <= i < |c.groups| :: !PartlyHit(c.groups[i], blamed.value))
      && NeverPartlyHit(Round(c, world).context, spec, isV06, world)
  }

  /** Then every signature of the accepted bundle is fresh. */
  lemma {:induction false} UnhitFresh(c: Context, spec: ChainSpec, isV06: bool, world: World)
    requires Ok(c) && Supported(c.groups, spec) && AllFresh(c.groups) && NeverPartlyHit(c, spec, isV06, world)
    ensures Retries(c, spec, isV06, world).Done? ==> AllFresh(Retries(c, spec, isV06, world).ctx.groups)
    decreases |Flat(c.groups)|
  {
    if Refuses(c, spec, isV06, world) && Round(c, world).Retry? && !BlamesAbsent(c, world) {
      RoundKeeps(c, spec, world);
      RoundFreshness(c, world.handleOps(c.groups), world.sign);
      UnhitFresh(Round(c, world).context, spec, isV06, world);
    }
  }

  // ---------------------------------------------------------------- a stale signature

  /** Of two operations under one aggregator, the first has a paymaster that the second does
      not have. */
  predicate PaidFirst(g: Group) {
    && g.key != ZERO && GroupOk(g) && |g.ops| == 2
    && g.ops[0].paymaster.Some? && g.ops[1].paymaster != g.ops[0].paymaster
  }

  /** When the entry point blames the paymaster, the other operation is left in a group that
      nobody signs. */
  lemma PurgeFirst(g: Group)
    requires PaidFirst(g)
    ensures Purge([g], Entity(Paymaster, g.ops[0].paymaster.value)) == [Group(g.key, [g.ops[1]], Unsigned)]
  {
    var entity := Entity(Paymaster, g.ops[0].paymaster.value);
    SelectsFirst(g.ops[0], g.ops[1], entity);
    assert g.ops == [g.ops[0], g.ops[1]] && [g][1..] == [];
    assert Purge([g], entity) == PurgeGroup(g, entity) + Purge([], entity);
  }

  /** A single operation need not be asked about, so that group is sent. */
  lemma {:induction false} StaleRun(c: Context, g: Group, spec: ChainSpec, world: World)
    requires Ok(c) && Supported(c.groups, spec) && c.groups == [g] && PaidFirst(g)
    requires GasEstimate(c.groups, spec) <= U64_MAX && world.handleOps(c.groups) == FailedOp(0, "AA33")
    ensures var r := Retries(c, spec, false, world);
            r.Done? && r.ctx.groups == [Group(g.key, [g.ops[1]], Unsigned)] && !AllFresh(r.ctx.groups)
  {
    assert [g][1..] == [] && Flat([g]) == g.ops + Flat([]) == g.ops;
    assert "AA33"[..4] == "AA33";
    var c' := Round(c, world).context;
    PurgeFirst(g);
    RoundKeeps(c, spec, world);
    assert c'.groups[1..] == [] && Flat(c'.groups) == [g.ops[1]] + Flat([]) == [g.ops[1]];
    EstimateShrinks(c'.groups, c.groups, spec);
    assert Retries(c', spec, false, world) == Done(c', GasEstimate(c'.groups, spec));
  }

  /** For instance two operations without cost. The bundle that is returned has one of them,
      with no signature. */
  lemma StaleExample(world: World) returns (c: Context, spec: ChainSpec)
    requires forall gs :: world.handleOps(gs) == FailedOp(0, "AA33")
    ensures Ok(c) && Supported(c.groups, spec) && AllFresh(c.groups)
    ensures forall op | op in Flat(c.groups) && op.paymaster.Some? :: op.infos.paymaster.Some?
    ensures var r := Conclude(c, spec, false, false, world);
            r.Done? && |Flat(r.ctx.groups)| == 1 && !AllFresh(r.ctx.groups)
  {
    var infos := EntityInfos(None, EntityInfo(Entity(Account, 1), false),
                             Some(EntityInfo(Entity(Paymaster, 8), false)), None);
    var paid := Op(1, 1, Some(8), None, Some(9), 0, 0, 0, 0, 0, false, 0, infos, map[], {});
    var plain := paid.(hash := 2, sender := 2, paymaster := None);
    var ops := [paid, plain];
    var g := Group(9, ops, Signed(ops));
    c := Context([g], [], map[], [map[], map[]]);
    spec := ChainSpec(0, 0, false, map[9 := AggregatorCosts(0, 0, 0)], 1000);
    assert [g][1..] == [] && Flat([g]) == ops + Flat([]) == ops;
    assert GroupOk(g);
    StaleOk(c, ops);
    FreeOfCharge(g, spec);
    StaleRun(c, g, spec, world);
  }

  lemma FreeOfCharge(g: Group, spec: ChainSpec)
    requires g.key in spec.aggregators && spec.aggregators[g.key].executionFixedGas == 0
    requires spec.sharedGas == spec.calldataFloorByteGas == 0
    requires forall op | op in g.ops :: op.computationGas == op.daGas == op.sponsoredDaGas == op.calldataFloorGas == 0
    ensures Supported([g], spec) && GasEstimate([g], spec) == 0
  {
    assert [g][1..] == [] && Flat([g]) == g.ops + Flat([]) == g.ops;
    FreeOps(g.ops, spec.includeDaGasInGasLimit);
    assert AggregatorGas([g], spec) == 0 + AggregatorGas([], spec);
  }

  lemma {:induction false} FreeOps(ops: seq<Op>, includeDa: bool)
    requires forall op | op in ops :: op.computationGas == op.daGas == op.sponsoredDaGas == op.calldataFloorGas == 0
    ensures SumGas(ops, includeDa) == 0 && SumFloor(ops) == 0
    decreases |ops|
  {
    if ops != [] { FreeOps(ops[1..], includeDa); }
  }

  lemma SelectsFirst(a: Op, b: Op, entity: Entity)
    requires Selects(entity, a) && !Selects(entity, b)
    ensures Selected([a, b], entity) == [a] && Unselected([a, b], entity) == [b]
  {
    assert [a, b][1..] == [b] && [b][1..] == [];
    assert Selected([b], entity) == [] + Selected([], entity)
           && Unselected([b], entity) == [b] + Unselected([], entity);
  }

  lemma StaleOk(c: Context, ops: seq<Op>)
    requires WellFormed(c.groups) && Flat(c.groups) == ops && |ops| == 2 && ops[0].storage == ops[1].storage == map[]
    requires c.rejected == [] && c.updates == map[] && c.held == [map[], map[]]
    ensures Ok(c)
  {
    var rest := ops[1..];
    assert rest[1..] == [] && Storages(rest) == [rest[0].storage] + Storages([]) == [ops[1].storage];
    assert Storages(ops) == [ops[0].storage] + Storages(rest) == c.held;
    forall s ensures Surplus(c, s) >= 0 {}
  }
}
