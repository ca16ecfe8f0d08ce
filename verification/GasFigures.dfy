/** What the gas, fee and size of a bundle consist of: nothing that an operation or an
    aggregator brings is left out of a sum, and nothing is counted twice. */
module GasFigures {
  import opened Primitives
  import opened Lists
  import opened Percent
  import opened UserOps
  import opened Proposal
  import opened BundleGas

  // ---------------------------------------------------------------- what an operation brings

  /** Each operation brings its computation gas and, where data availability counts, the gas it
      pays for it and the gas it is sponsored. */
  lemma {:induction false} GasOfEach(ops: seq<Op>, i: nat, includeDa: bool)
    requires i < |ops|
    ensures SumGas(ops, includeDa) ==
            SumGas(RemoveAt(ops, i), includeDa) + ops[i].computationGas
            + if includeDa then ops[i].daGas + ops[i].sponsoredDaGas else 0
    decreases i
  {
    if i == 0 {
      assert RemoveAt(ops, 0) == ops[1..];
    } else {
      GasOfEach(ops[1..], i - 1, includeDa);
      assert RemoveAt(ops, i)[1..] == RemoveAt(ops[1..], i - 1);
    }
  }

  lemma {:induction false} FloorOfEach(ops: seq<Op>, i: nat)
    requires i < |ops|
    ensures SumFloor(ops) == SumFloor(RemoveAt(ops, i)) + ops[i].calldataFloorGas
    decreases i
  {
    if i == 0 {
      assert RemoveAt(ops, 0) == ops[1..];
    } else {
      FloorOfEach(ops[1..], i - 1);
      assert RemoveAt(ops, i)[1..] == RemoveAt(ops[1..], i - 1);
    }
  }

  /** An authorization tuple takes 125 bytes: a chain id, an address, a nonce, a parity and two
      words of signature. */
  lemma {:induction false} SizeOfEach(ops: seq<Op>, i: nat)
    requires i < |ops|
    ensures SumSize(ops) ==
            SumSize(RemoveAt(ops, i)) + ops[i].encodedSize
            + if ops[i].hasAuthorization then 32 + 20 + 8 + 1 + 32 + 32 else 0
    decreases i
  {
    if i == 0 {
      assert RemoveAt(ops, 0) == ops[1..];
    } else {
      SizeOfEach(ops[1..], i - 1);
      assert RemoveAt(ops, i)[1..] == RemoveAt(ops[1..], i - 1);
    }
  }

  lemma NoOperationsNoGas(includeDa: bool)
    ensures SumGas([], includeDa) == 0 && SumFloor([]) == 0 && SumSize([]) == 0
  {
  }

  // ---------------------------------------------------------------- what an aggregator brings

  lemma {:induction false} SupportedWithout(gs: seq<Group>, k: nat, spec: ChainSpec)
    requires k < |gs| && Supported(gs, spec)
    ensures Supported(RemoveAt(gs, k), spec) && (gs[k].key != ZERO ==> gs[k].key in spec.aggregators)
    decreases k
  {
    if k == 0 {
      assert RemoveAt(gs, 0) == gs[1..];
    } else {
      assert Supported(gs[1..], spec);
      SupportedWithout(gs[1..], k - 1, spec);
      assert RemoveAt(gs, k) == [gs[0]] + RemoveAt(gs[1..], k - 1);
      KeysCons(gs[0], RemoveAt(gs[1..], k - 1));
    }
  }

  lemma KeysCons(g: Group, gs: seq<Group>)
    ensures Keys([g] + gs) == {g.key} + Keys(gs)
  {
    assert ([g] + gs)[1..] == gs;
  }

  /** Each aggregator brings its fixed gas, and its signature a fixed length and one that grows
      with the operations it covers. */
  lemma {:induction false} AggregatorOfEach(gs: seq<Group>, k: nat, spec: ChainSpec)
    requires k < |gs| && Supported(gs, spec)
    ensures Supported(RemoveAt(gs, k), spec) && (gs[k].key != ZERO ==> gs[k].key in spec.aggregators)
    ensures AggregatorGas(gs, spec) ==
            AggregatorGas(RemoveAt(gs, k), spec)
            + if gs[k].key == ZERO then 0 else spec.aggregators[gs[k].key].executionFixedGas
    ensures SignatureBytes(gs, spec) ==
            SignatureBytes(RemoveAt(gs, k), spec)
            + if gs[k].key == ZERO then 0
              else spec.aggregators[gs[k].key].sigFixedLength
                   + spec.aggregators[gs[k].key].sigVariableLength * |gs[k].ops|
    decreases k
  {
    SupportedWithout(gs, k, spec);
    if k == 0 {
      assert RemoveAt(gs, 0) == gs[1..];
      if gs[0].key != ZERO { TimesIsProduct(spec.aggregators[gs[0].key].sigVariableLength, |gs[0].ops|); }
    } else {
      assert Supported(gs[1..], spec);
      AggregatorOfEach(gs[1..], k - 1, spec);
      var rest := RemoveAt(gs[1..], k - 1);
      assert RemoveAt(gs, k) == [gs[0]] + rest && ([gs[0]] + rest)[1..] == rest;
    }
  }

  // ---------------------------------------------------------------- the bundle

  /** The overhead in bytes, in either layout: a selector and three words, one word per
      operation, and with aggregators three words per group and the signatures. */
  lemma OverheadExact(gs: seq<Group>, spec: ChainSpec)
    requires Supported(gs, spec)
    ensures OverheadBytes(gs, spec) ==
            4 + 3 * 32 + 32 * |Flat(gs)|
            + if |gs| == 1 && gs[0].key == ZERO then 0 else 3 * 32 * |gs| + SignatureBytes(gs, spec)
  {
    AggregatedBytesTotal(gs, spec);
    if |gs| == 1 {
      assert gs[1..] == [] && Flat(gs) == gs[0].ops + Flat([]) == gs[0].ops;
    }
  }

  /** What executing a bundle takes. */
  function ExecutionGas(gs: seq<Group>, spec: ChainSpec, includeDa: bool): nat
    requires Supported(gs, spec)
  {
    spec.sharedGas + AggregatorGas(gs, spec) + SumGas(Flat(gs), includeDa)
  }

  /** What its calldata costs at least. */
  function CalldataGas(gs: seq<Group>, spec: ChainSpec): nat
    requires Supported(gs, spec)
  {
    OverheadBytes(gs, spec) * spec.calldataFloorByteGas + SumFloor(Flat(gs))
  }

  /** The gas limit covers both, and is no more than the larger of them. */
  lemma GasLimitExact(gs: seq<Group>, spec: ChainSpec, includeDa: bool)
    requires Supported(gs, spec)
    ensures var limit, execution := GasLimit(gs, spec, includeDa), ExecutionGas(gs, spec, includeDa);
            limit >= execution && limit >= CalldataGas(gs, spec) && limit in {execution, CalldataGas(gs, spec)}
  {
    TimesIsProduct(OverheadBytes(gs, spec), spec.calldataFloorByteGas);
  }

  /** Three figures are made from it: without data availability, with it, and as the chain has
      it. The cost counts all gas at the price. */
  lemma FiguresExact(gs: seq<Group>, spec: ChainSpec, gasPrice: nat)
    requires Supported(gs, spec)
    ensures ComputationGasLimit(gs, spec) == Max(ExecutionGas(gs, spec, false), CalldataGas(gs, spec))
    ensures BundleCost(gs, spec, gasPrice) == Max(ExecutionGas(gs, spec, true), CalldataGas(gs, spec)) * gasPrice
    ensures BundleGasLimit(gs, spec) ==
            Max(ExecutionGas(gs, spec, spec.includeDaGasInGasLimit), CalldataGas(gs, spec))
    ensures TransactionSize(gs, spec) ==
            8 + 20 + 20 + 32 + 8 + 32 + 32 + 65 + 50 + OverheadBytes(gs, spec) + SumSize(Flat(gs))
  {
    TimesIsProduct(OverheadBytes(gs, spec), spec.calldataFloorByteGas);
    TimesIsProduct(GasLimit(gs, spec, true), gasPrice);
  }

  /** The estimate is five percent more, rounded down; the fee a bundle is assembled for is ninety
      percent of what may be spent, rounded down. */
  lemma OverheadPercent(gs: seq<Group>, spec: ChainSpec, maxFee: nat)
    requires Supported(gs, spec)
    ensures 100 * GasEstimate(gs, spec) <= 105 * BundleGasLimit(gs, spec) < 100 * (GasEstimate(gs, spec) + 1)
    ensures 100 * BufferedFee(maxFee) <= 90 * maxFee < 100 * (BufferedFee(maxFee) + 1)
  {
  }

  /** The estimate covers everything the bundle needs. */
  predicate CoversGas(estimate: nat, gs: seq<Group>, spec: ChainSpec) {
    && Supported(gs, spec)
    && 105 * ExecutionGas(gs, spec, spec.includeDaGasInGasLimit) < 100 * (estimate + 1)
    && 105 * CalldataGas(gs, spec) < 100 * (estimate + 1)
  }

  lemma EstimateCovers(gs: seq<Group>, spec: ChainSpec, estimate: nat)
    requires Supported(gs, spec) && GasEstimate(gs, spec) <= estimate
    ensures CoversGas(estimate, gs, spec)
  {
    FiguresExact(gs, spec, 0);
    OverheadPercent(gs, spec, 0);
  }
}
