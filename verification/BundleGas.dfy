/** Gas, fee and size of a bundle (the get_bundle_* methods of ProposalContext, eth.rs):
    nothing grows when operations or whole groups are taken out, so every limit checked
    while the bundle is assembled still holds for what is sent. */
module BundleGas {
  import opened Primitives
  import opened Lists
  import opened Percent
  import opened UserOps
  import opened Proposal

  datatype AggregatorCosts = AggregatorCosts(executionFixedGas: nat, sigFixedLength: nat, sigVariableLength: nat)
  datatype ChainSpec = ChainSpec(
    sharedGas: nat, calldataFloorByteGas: nat, includeDaGasInGasLimit: bool,
    aggregators: map<Address, AggregatorCosts>, maxTransactionSize: nat)

  const BUNDLE_BYTE_OVERHEAD := 4 + 32 + 32 + 32
  const BUNDLE_TRANSACTION_GAS_OVERHEAD_PERCENT := 5

  /** Every aggregator in use is registered; the costs of others cannot be looked up. */
  predicate Supported(gs: seq<Group>, spec: ChainSpec) {
    Keys(gs) - {ZERO} <= spec.aggregators.Keys
  }

  function SignatureLength(costs: AggregatorCosts, ops: nat): nat {
    costs.sigFixedLength + Times(costs.sigVariableLength, ops)
  }

  lemma {:induction false} SignatureLengthMonotone(costs: AggregatorCosts, n: nat, m: nat)
    requires n <= m
    ensures SignatureLength(costs, n) <= SignatureLength(costs, m)
    decreases m
  {
    if n < m { SignatureLengthMonotone(costs, n, m - 1); }
  }

  function GroupBytes(g: Group, spec: ChainSpec): nat
    requires Supported([g], spec)
  {
    96 + 32 * |g.ops| +
    if g.key == ZERO then 0
    else SignatureLength(spec.aggregators[g.key], |g.ops|)
  }

  /** The layout with aggregators. */
  function AggregatedBytes(gs: seq<Group>, spec: ChainSpec): (n: nat)
    requires Supported(gs, spec)
  {
    if gs == [] then 0 else GroupBytes(gs[0], spec) + AggregatedBytes(gs[1..], spec)
  }

  function SignatureBytes(gs: seq<Group>, spec: ChainSpec): (n: nat)
    requires Supported(gs, spec)
  {
    if gs == [] then 0
    else
      (if gs[0].key == ZERO then 0 else SignatureLength(spec.aggregators[gs[0].key], |gs[0].ops|))
      + SignatureBytes(gs[1..], spec)
  }

  /** Three words per group, one per operation, and the signatures. */
  lemma {:induction false} AggregatedBytesTotal(gs: seq<Group>, spec: ChainSpec)
    requires Supported(gs, spec)
    ensures AggregatedBytes(gs, spec) == 3 * 32 * |gs| + 32 * |Flat(gs)| + SignatureBytes(gs, spec)
    decreases |gs|
  {
    if gs != [] { AggregatedBytesTotal(gs[1..], spec); }
  }

  /** A bundle of a single, unaggregated group uses the shorter handleOps layout. */
  function OverheadBytes(gs: seq<Group>, spec: ChainSpec): (n: nat)
    requires Supported(gs, spec)
  {
    BUNDLE_BYTE_OVERHEAD +
    if |gs| == 1 && gs[0].key == ZERO then 32 * |gs[0].ops| else AggregatedBytes(gs, spec)
  }

  function AggregatorGas(gs: seq<Group>, spec: ChainSpec): (n: nat)
    requires Supported(gs, spec)
  {
    if gs == [] then 0
    else (if gs[0].key == ZERO then 0 else spec.aggregators[gs[0].key].executionFixedGas) + AggregatorGas(gs[1..], spec)
  }

  function OpGas(op: Op, includeDa: bool): nat {
    if includeDa then op.computationGas + op.daGas + op.sponsoredDaGas else op.computationGas
  }

  function SumGas(ops: seq<Op>, includeDa: bool): (n: nat) {
    if ops == [] then 0 else OpGas(ops[0], includeDa) + SumGas(ops[1..], includeDa)
  }

  function SumFloor(ops: seq<Op>): (n: nat) {
    if ops == [] then 0 else ops[0].calldataFloorGas + SumFloor(ops[1..])
  }

  /** Encoded bytes and authorization tuples. */
  function SumSize(ops: seq<Op>): (n: nat) {
    if ops == [] then 0 else ops[0].encodedSize + (if ops[0].hasAuthorization then 125 else 0) + SumSize(ops[1..])
  }

  /** The execution gas or the calldata floor of EIP-7623, whichever is larger. */
  function GasLimit(gs: seq<Group>, spec: ChainSpec, includeDa: bool): (n: nat)
    requires Supported(gs, spec)
  {
    Max(spec.sharedGas + AggregatorGas(gs, spec) + SumGas(Flat(gs), includeDa),
        Times(OverheadBytes(gs, spec), spec.calldataFloorByteGas) + SumFloor(Flat(gs)))
  }

  function ComputationGasLimit(gs: seq<Group>, spec: ChainSpec): (n: nat)
    requires Supported(gs, spec)
  {
    GasLimit(gs, spec, false)
  }

  function BundleCost(gs: seq<Group>, spec: ChainSpec, gasPrice: nat): (n: nat)
    requires Supported(gs, spec)
  {
    Times(GasLimit(gs, spec, true), gasPrice)
  }

  function BundleGasLimit(gs: seq<Group>, spec: ChainSpec): (n: nat)
    requires Supported(gs, spec)
  {
    GasLimit(gs, spec, spec.includeDaGasInGasLimit)
  }

  /** Fixed transaction fields, signature and encoding headers come to 267 bytes. */
  function TransactionSize(gs: seq<Group>, spec: ChainSpec): (n: nat)
    requires Supported(gs, spec)
  {
    267 + OverheadBytes(gs, spec) + SumSize(Flat(gs))
  }

  // ---------------------------------------------------------------- taking out never costs more

  lemma {:induction false} SumsShrink(xs: seq<Op>, ys: seq<Op>, includeDa: bool)
    requires Subseq(xs, ys)
    ensures SumGas(xs, includeDa) <= SumGas(ys, includeDa) && SumFloor(xs) <= SumFloor(ys) && SumSize(xs) <= SumSize(ys)
    ensures |xs| <= |ys|
    decreases |ys|
  {
    if xs != [] {
      if xs[0] == ys[0] && Subseq(xs[1..], ys[1..]) {
        SumsShrink(xs[1..], ys[1..], includeDa);
      } else {
        SumsShrink(xs, ys[1..], includeDa);
      }
    }
  }

  lemma SupportedShrinks(hs: seq<Group>, gs: seq<Group>, spec: ChainSpec)
    requires Shrinks(hs, gs) && Supported(gs, spec)
    ensures Supported(hs, spec)
  {
    ShrinksFlat(hs, gs);
  }

  lemma GroupBytesShrink(h: Group, g: Group, spec: ChainSpec)
    requires h.key == g.key && Subseq(h.ops, g.ops) && Supported([g], spec)
    ensures Supported([h], spec) && GroupBytes(h, spec) <= GroupBytes(g, spec)
  {
    SumsShrink(h.ops, g.ops, false);
    assert Keys([h]) == Keys([g]);
    if g.key != ZERO { SignatureLengthMonotone(spec.aggregators[g.key], |h.ops|, |g.ops|); }
  }

  lemma {:induction false} GroupSumsShrink(hs: seq<Group>, gs: seq<Group>, spec: ChainSpec)
    requires Shrinks(hs, gs) && Supported(gs, spec)
    ensures Supported(hs, spec)
    ensures AggregatedBytes(hs, spec) <= AggregatedBytes(gs, spec) && AggregatorGas(hs, spec) <= AggregatorGas(gs, spec)
    decreases |gs|
  {
    SupportedShrinks(hs, gs, spec);
    if hs != [] {
      if hs[0].key == gs[0].key && Subseq(hs[0].ops, gs[0].ops) && Shrinks(hs[1..], gs[1..]) {
        GroupBytesShrink(hs[0], gs[0], spec);
        GroupSumsShrink(hs[1..], gs[1..], spec);
      } else {
        GroupSumsShrink(hs, gs[1..], spec);
      }
    }
  }

  /** Also across the switch between the two layouts. */
  lemma OverheadShrinks(hs: seq<Group>, gs: seq<Group>, spec: ChainSpec)
    requires Shrinks(hs, gs) && Supported(gs, spec)
    ensures Supported(hs, spec) && OverheadBytes(hs, spec) <= OverheadBytes(gs, spec)
  {
    GroupSumsShrink(hs, gs, spec);
    if |gs| == 1 && gs[0].key == ZERO {
      if hs != [] {
        assert Shrinks(hs[1..], gs[1..]);
        assert |hs| == 1 && hs[0].key == ZERO && Subseq(hs[0].ops, gs[0].ops);
        SumsShrink(hs[0].ops, gs[0].ops, false);
      }
    } else if |hs| == 1 && hs[0].key == ZERO {
      assert AggregatedBytes(hs, spec) == GroupBytes(hs[0], spec) + AggregatedBytes(hs[1..], spec);
    }
  }

  /** Gas limits and transaction size of a bundle bound those of everything it can shrink to. */
  lemma LimitsShrink(hs: seq<Group>, gs: seq<Group>, spec: ChainSpec, includeDa: bool)
    requires Shrinks(hs, gs) && Supported(gs, spec)
    ensures Supported(hs, spec)
    ensures GasLimit(hs, spec, includeDa) <= GasLimit(gs, spec, includeDa)
    ensures TransactionSize(hs, spec) <= TransactionSize(gs, spec)
  {
    GroupSumsShrink(hs, gs, spec);
    OverheadShrinks(hs, gs, spec);
    ShrinksFlat(hs, gs);
    SumsShrink(Flat(hs), Flat(gs), includeDa);
    TimesMonotone(OverheadBytes(hs, spec), OverheadBytes(gs, spec), spec.calldataFloorByteGas);
  }

  lemma {:induction false} SumGasDa(ops: seq<Op>)
    ensures SumGas(ops, false) <= SumGas(ops, true)
    decreases |ops|
  {
    if ops != [] { SumGasDa(ops[1..]); }
  }

  function BufferedFee(maxFee: nat): nat {
    maxFee * (100 - BUNDLE_TRANSACTION_GAS_OVERHEAD_PERCENT * 2) / 100
  }

  /** The gas limit put on the transaction, rounded as the code rounds it. */
  function GasEstimate(gs: seq<Group>, spec: ChainSpec): (n: nat)
    requires Supported(gs, spec)
  {
    IncreaseByPercent(BundleGasLimit(gs, spec), BUNDLE_TRANSACTION_GAS_OVERHEAD_PERCENT)
  }

  /** The 90% buffer checked at assembly, the 5% overhead added at the end and any removal
      in between compose: the transaction costs at most 94.5% of the funds available. */
  lemma EstimateWithinFee(hs: seq<Group>, gs: seq<Group>, spec: ChainSpec, gasPrice: nat, maxFee: nat)
    requires Shrinks(hs, gs) && Supported(gs, spec) && BundleCost(gs, spec, gasPrice) <= BufferedFee(maxFee)
    ensures Supported(hs, spec) && 1000 * (GasEstimate(hs, spec) * gasPrice) <= 945 * maxFee
    ensures GasEstimate(hs, spec) * gasPrice <= maxFee
  {
    LimitsShrink(hs, gs, spec, true);
    SumGasDa(Flat(hs));
    TimesIsProduct(GasLimit(gs, spec, true), gasPrice);
    BufferCoversOverhead(BundleGasLimit(hs, spec), GasLimit(gs, spec, true), gasPrice, maxFee);
  }

  lemma BufferCoversOverhead(small: nat, large: nat, gasPrice: nat, maxFee: nat)
    requires small <= large && large * gasPrice <= BufferedFee(maxFee)
    ensures 1000 * (IncreaseByPercent(small, BUNDLE_TRANSACTION_GAS_OVERHEAD_PERCENT) * gasPrice) <= 945 * maxFee
    ensures IncreaseByPercent(small, BUNDLE_TRANSACTION_GAS_OVERHEAD_PERCENT) * gasPrice <= maxFee
  {
    var estimate := IncreaseByPercent(small, BUNDLE_TRANSACTION_GAS_OVERHEAD_PERCENT);
    assert 100 * estimate <= 105 * large;
    MulMonotone(gasPrice, 100 * estimate, 105 * large);
    ScaleOut(100, estimate, gasPrice);
    ScaleOut(105, large, gasPrice);
    FeeArithmetic(estimate * gasPrice, large * gasPrice, maxFee);
  }

  lemma ScaleOut(k: nat, x: nat, y: nat)
    ensures y * (k * x) == k * (x * y)
  {
  }

  lemma FeeArithmetic(cost: nat, bound: nat, maxFee: nat)
    requires 100 * cost <= 105 * bound && bound <= BufferedFee(maxFee)
    ensures 1000 * cost <= 945 * maxFee && cost <= maxFee
  {
  }
}
