/** Choosing which signers to fund in one transaction (funding.rs). */
module Funding {
  import opened Primitives
  import opened Lists
  import Percent

  const GAS_BASE := 50_000
  const GAS_PER_CALL := 40_000
  const MAX_TO_FUND_IN_BATCH := 128

  datatype Holding = Holding(address: Address, balance: nat)
  datatype Target = Target(address: Address, amount: nat)

  /** `daGas` is 0 on chains that do not charge for data availability. */
  datatype Terms = Terms(fundBelow: nat, fundTo: nat, maxFee: nat, daGas: nat, includeDaGas: bool)

  datatype Batch = NotNeeded | NotEnough | Batch(calls: seq<Target>, value: nat, gasLimit: nat)

  // ---------------------------------------------------------------- selecting and sorting

  predicate IsNeeded(h: Holding, terms: Terms) {
    h.balance < terms.fundBelow && h.balance < terms.fundTo
  }

  function Needed(holdings: seq<Holding>, terms: Terms): (r: seq<Target>) {
    if holdings == [] then []
    else
      var h := holdings[|holdings| - 1];
      Needed(holdings[..|holdings| - 1], terms) +
      if IsNeeded(h, terms) then [Target(h.address, terms.fundTo - h.balance)] else []
  }

  /** Larger amounts first, then smaller addresses. */
  predicate Before(a: Target, b: Target) {
    a.amount > b.amount || (a.amount == b.amount && a.address <= b.address)
  }

  predicate IsSorted(ts: seq<Target>) {
    forall i, j | 0 <= i < j < |ts| :: Before(ts[i], ts[j])
  }

  function Insert(t: Target, ts: seq<Target>): (r: seq<Target>) {
    if ts == [] || Before(t, ts[0]) then [t] + ts else [ts[0]] + Insert(t, ts[1..])
  }

  function Sort(ts: seq<Target>): (r: seq<Target>) {
    if ts == [] then [] else Insert(ts[0], Sort(ts[1..]))
  }

  lemma {:induction false} InsertCount(t: Target, ts: seq<Target>, x: Target)
    ensures Count(Insert(t, ts), x) == Count(ts, x) + if x == t then 1 else 0
    decreases |ts|
  {
    if ts == [] || Before(t, ts[0]) {
      assert ([t] + ts)[1..] == ts;
    } else {
      InsertCount(t, ts[1..], x);
      assert ([ts[0]] + Insert(t, ts[1..]))[1..] == Insert(t, ts[1..]);
    }
  }

  lemma InsertMembers(t: Target, ts: seq<Target>, i: nat)
    requires i < |Insert(t, ts)|
    ensures Insert(t, ts)[i] == t || Insert(t, ts)[i] in ts
  {
    var r := Insert(t, ts);
    InsertCount(t, ts, r[i]);
    CountMember(r, r[i]);
    CountMember(ts, r[i]);
  }

  lemma {:induction false} InsertSorted(t: Target, ts: seq<Target>)
    requires IsSorted(ts)
    ensures IsSorted(Insert(t, ts))
    decreases |ts|
  {
    var r := Insert(t, ts);
    if ts == [] || Before(t, ts[0]) {
      forall i, j | 0 <= i < j < |r| ensures Before(r[i], r[j]) {
        if i == 0 && j > 1 { assert Before(ts[0], ts[j - 1]); }
        if i > 0 { assert Before(ts[i - 1], ts[j - 1]); }
      }
    } else {
      InsertSorted(t, ts[1..]);
      forall i, j | 0 <= i < j < |r| ensures Before(r[i], r[j]) {
        if i == 0 {
          InsertMembers(t, ts[1..], j - 1);
          if r[j] != t {
            var k :| 0 <= k < |ts[1..]| && ts[1..][k] == r[j];
            assert Before(ts[0], ts[k + 1]);
          }
        } else {
          assert Before(Insert(t, ts[1..])[i - 1], Insert(t, ts[1..])[j - 1]);
        }
      }
    }
  }

  /** Sorting orders the targets and loses none. */
  lemma {:induction false} SortCorrect(ts: seq<Target>)
    ensures IsSorted(Sort(ts)) && forall x :: Count(Sort(ts), x) == Count(ts, x)
    decreases |ts|
  {
    if ts != [] {
      SortCorrect(ts[1..]);
      InsertSorted(ts[0], Sort(ts[1..]));
      forall x ensures Count(Sort(ts), x) == Count(ts, x) {
        InsertCount(ts[0], Sort(ts[1..]), x);
      }
    }
  }

  /** The target brings a low holding exactly to the balance aimed at. */
  predicate TopsUp(t: Target, h: Holding, terms: Terms) {
    && h.balance < terms.fundBelow && h.balance < terms.fundTo
    && t.address == h.address && h.balance + t.amount == terms.fundTo
  }

  /** The targets are those that top up a holding. */
  lemma {:induction false} NeededExact(holdings: seq<Holding>, terms: Terms, t: Target)
    ensures t in Needed(holdings, terms) <==>
            exists i | 0 <= i < |holdings| :: TopsUp(t, holdings[i], terms)
    decreases |holdings|
  {
    if holdings != [] {
      var n := |holdings| - 1;
      NeededExact(holdings[..n], terms, t);
      if i :| 0 <= i < n && TopsUp(t, holdings[i], terms) {
        assert holdings[..n][i] == holdings[i];
      }
    }
  }

  // ---------------------------------------------------------------- what a batch costs

  function Total(ts: seq<Target>): nat {
    if ts == [] then 0 else Total(ts[..|ts| - 1]) + ts[|ts| - 1].amount
  }

  /** The amounts, the gas of the calls and of data availability. */
  function Cost(ts: seq<Target>, terms: Terms): nat {
    Total(ts) + (GAS_BASE + GAS_PER_CALL * |ts| + terms.daGas) * terms.maxFee
  }

  function GasLimit(calls: nat, terms: Terms): nat {
    GAS_BASE + GAS_PER_CALL * calls + if terms.includeDaGas then terms.daGas else 0
  }

  /** What dropping the last call saves. */
  lemma CostStep(ts: seq<Target>, terms: Terms)
    requires ts != []
    ensures Cost(ts, terms) == Cost(ts[..|ts| - 1], terms) + ts[|ts| - 1].amount + GAS_PER_CALL * terms.maxFee
  {
    var n := |ts| - 1;
    Distribute(GAS_BASE + GAS_PER_CALL * n + terms.daGas, GAS_PER_CALL, terms.maxFee);
  }

  lemma Distribute(a: nat, b: nat, c: nat)
    ensures (a + b) * c == a * c + b * c
  {
  }

  lemma {:induction false} CostGrows(ts: seq<Target>, terms: Terms, i: nat, j: nat)
    requires i <= j <= |ts|
    ensures Cost(ts[..i], terms) <= Cost(ts[..j], terms)
    decreases j
  {
    if i < j {
      CostGrows(ts, terms, i, j - 1);
      CostStep(ts[..j], terms);
      assert ts[..j][..j - 1] == ts[..j - 1];
    }
  }

  /** What a batch takes: the amounts, and at the maximum fee the gas of the transaction, of its
      calls and of data availability. */
  lemma CostExactly(ts: seq<Target>, terms: Terms)
    ensures Cost(ts, terms) == Total(ts) + (50_000 + 40_000 * |ts| + terms.daGas) * terms.maxFee
    ensures GasLimit(|ts|, terms) == 50_000 + 40_000 * |ts| + if terms.includeDaGas then terms.daGas else 0
  {
  }

  lemma {:induction false} TotalExactly(ts: seq<Target>, i: nat)
    requires i < |ts|
    ensures Total(ts) == Total(RemoveAt(ts, i)) + ts[i].amount
    decreases |ts|
  {
    var n := |ts| - 1;
    if i == n {
      assert RemoveAt(ts, i) == ts[..n];
    } else {
      TotalExactly(ts[..n], i);
      assert RemoveAt(ts, i)[..n - 1] == RemoveAt(ts[..n], i) && RemoveAt(ts, i)[n - 1] == ts[n];
    }
  }

  // ---------------------------------------------------------------- the batch

  function Candidates(holdings: seq<Holding>, terms: Terms): seq<Target> {
    var sorted := Sort(Needed(holdings, terms));
    if |sorted| > MAX_TO_FUND_IN_BATCH then sorted[..MAX_TO_FUND_IN_BATCH] else sorted
  }

  /** A batch is the longest affordable prefix of the candidates. */
  predicate Longest(calls: seq<Target>, candidates: seq<Target>, terms: Terms, funds: nat) {
    && calls <= candidates && Cost(calls, terms) <= funds
    && forall j | |calls| < j <= |candidates| :: Cost(candidates[..j], terms) > funds
  }

  method SelectNeeded(holdings: seq<Holding>, terms: Terms) returns (r: seq<Target>)
    ensures r == Needed(holdings, terms)
  {
    r := [];
    for i := 0 to |holdings|
      invariant r == Needed(holdings[..i], terms)
    {
      assert holdings[..i + 1][..i] == holdings[..i];
      var h := holdings[i];
      if IsNeeded(h, terms) { r := r + [Target(h.address, terms.fundTo - h.balance)]; }
    }
    assert holdings[..|holdings|] == holdings;
  }

  method SumAmounts(ts: seq<Target>) returns (total: nat)
    ensures total == Total(ts)
  {
    total := 0;
    for i := 0 to |ts|
      invariant total == Total(ts[..i])
    {
      assert ts[..i + 1][..i] == ts[..i];
      total := total + ts[i].amount;
    }
    assert ts[..|ts|] == ts;
  }

  /** Drops calls from the end until the rest is affordable. The running totals never go
      below zero. */
  method PopUntilAffordable(candidates: seq<Target>, terms: Terms, funds: nat, total: nat)
    returns (calls: seq<Target>, left: nat)
    requires total == Total(candidates)
    ensures calls <= candidates && left == Total(calls)
    ensures Longest(calls, candidates, terms, funds)
            || (calls == [] && forall j | 0 <= j <= |candidates| :: Cost(candidates[..j], terms) > funds)
  {
    calls, left := candidates, total;
    var totalWithGas: nat := Cost(candidates, terms);
    assert candidates[..|candidates|] == candidates;
    while totalWithGas > funds && calls != []
      invariant |calls| <= |candidates| && calls == candidates[..|calls|]
      invariant left == Total(calls) && totalWithGas == Cost(calls, terms)
      invariant forall j | |calls| < j <= |candidates| :: Cost(candidates[..j], terms) > funds
      decreases |calls|
    {
      var n := |calls| - 1;
      CostStep(calls, terms);
      totalWithGas := totalWithGas - (calls[n].amount + GAS_PER_CALL * terms.maxFee);
      left := left - calls[n].amount;
      calls := calls[..n];
    }
  }

  lemma CostCovers(ts: seq<Target>, terms: Terms)
    ensures Total(ts) + GasLimit(|ts|, terms) * terms.maxFee <= Cost(ts, terms)
  {
    Percent.MulMonotone(terms.maxFee, GasLimit(|ts|, terms), GAS_BASE + GAS_PER_CALL * |ts| + terms.daGas);
  }

  lemma SortNonEmpty(ts: seq<Target>)
    ensures Sort(ts) == [] <==> ts == []
  {
    if ts != [] {
      InsertCount(ts[0], Sort(ts[1..]), ts[0]);
      assert Count(Sort(ts), ts[0]) > 0;
    }
  }

  /** What is sent fits: the longest affordable prefix, with its value and gas limit. */
  predicate Fits(r: Batch, candidates: seq<Target>, terms: Terms, funds: nat)
    requires r.Batch?
  {
    && r.calls != [] && Longest(r.calls, candidates, terms, funds)
    && r.value == Total(r.calls)
    && r.gasLimit == 50_000 + 40_000 * |r.calls| + (if terms.includeDaGas then terms.daGas else 0)
    && r.value + r.gasLimit * terms.maxFee <= funds
  }

  method FundCandidates(candidates: seq<Target>, terms: Terms, funds: nat) returns (r: Batch)
    requires candidates != []
    ensures !r.NotNeeded?
    ensures r.NotEnough? <==> Cost(candidates[..1], terms) > funds
    ensures r.Batch? ==> Fits(r, candidates, terms, funds)
  {
    var total := SumAmounts(candidates);
    var calls, value := PopUntilAffordable(candidates, terms, funds, total);
    if calls == [] {
      assert Cost(candidates[..1], terms) > funds;
      return NotEnough;
    }
    CostGrows(candidates, terms, 1, |calls|);
    assert candidates[..|calls|] == calls;
    CostCovers(calls, terms);
    r := Batch(calls, value, GasLimit(|calls|, terms));
  }

  /** The batch sent is a non-empty longest affordable prefix of the sorted candidates; its
      value is the sum of its calls and, with the gas limit at the maximum fee, within the
      funder's balance. It fails exactly when not even one call is affordable. */
  method ChooseBatch(holdings: seq<Holding>, terms: Terms, funds: nat) returns (r: Batch)
    ensures r.NotNeeded? <==> Needed(holdings, terms) == []
    ensures r.NotEnough? <==> Candidates(holdings, terms) != [] && Cost(Candidates(holdings, terms)[..1], terms) > funds
    ensures r.Batch? ==> Fits(r, Candidates(holdings, terms), terms, funds) && |r.calls| <= 128
  {
    var needed := SelectNeeded(holdings, terms);
    SortNonEmpty(needed);
    if needed == [] { return NotNeeded; }
    var sorted := Sort(needed);
    r := FundCandidates(if |sorted| > MAX_TO_FUND_IN_BATCH then sorted[..MAX_TO_FUND_IN_BATCH] else sorted,
                        terms, funds);
  }

  /** The neediest come first: no candidate left out needs more than one that is funded. */
  lemma NeediestFirst(holdings: seq<Holding>, terms: Terms, calls: seq<Target>, k: nat, j: nat)
    requires calls <= Candidates(holdings, terms) && k < |calls| <= j < |Sort(Needed(holdings, terms))|
    ensures Sort(Needed(holdings, terms))[j].amount <= calls[k].amount
  {
    var sorted := Sort(Needed(holdings, terms));
    SortCorrect(Needed(holdings, terms));
    assert calls[k] == sorted[k] && Before(sorted[k], sorted[j]);
  }

  /** The candidates are all targets, or the first 128 of them. */
  lemma CandidatesExactly(holdings: seq<Holding>, terms: Terms)
    ensures var sorted := Sort(Needed(holdings, terms));
            Candidates(holdings, terms) == if |sorted| <= 128 then sorted else sorted[..128]
  {
  }

  /** Every call of a batch tops up a holding that needs it, exactly to the balance aimed at. */
  lemma CallsTopUp(holdings: seq<Holding>, terms: Terms, calls: seq<Target>, k: nat) returns (i: nat)
    requires calls <= Candidates(holdings, terms) && k < |calls|
    ensures i < |holdings| && TopsUp(calls[k], holdings[i], terms)
  {
    var needed := Needed(holdings, terms);
    assert calls[k] == Sort(needed)[k];
    SortCorrect(needed);
    CountMember(Sort(needed), calls[k]);
    CountMember(needed, calls[k]);
    NeededExact(holdings, terms, calls[k]);
    i :| 0 <= i < |holdings| && TopsUp(calls[k], holdings[i], terms);
  }
}
