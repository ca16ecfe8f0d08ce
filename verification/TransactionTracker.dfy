/** The tracker as the program keeps it, updated in place (transaction_tracker.rs). */
module Trackers {
  import opened Primitives
  import opened Percent
  import opened Tracking

  class TransactionTracker {
    var nonce: nat
    var balance: nat
    var transactions: seq<Tx>
    var hasAbandoned: bool
    var attemptCount: nat
    const percent: nat

    function Value(): Tracker
      reads this
    {
      Tracker(nonce, balance, transactions, hasAbandoned, attemptCount)
    }

    predicate Valid()
      reads this
    {
      TrackerOk(Value(), percent)
    }

    constructor (percent: nat, fetched: Option<Account>)
      ensures Valid() && this.percent == percent
      ensures Value() == Tracking.Reset(Tracker(0, 0, [], false, 0), fetched)
    {
      this.percent := percent;
      nonce, balance, transactions, hasAbandoned, attemptCount := 0, 0, [], false, 0;
      if fetched.Some? { nonce, balance := fetched.value.nonce, fetched.value.balance; }
    }

    method SetNonceAndClearState(nonce: nat)
      modifies this
      ensures Value() == Clear(old(Value()), nonce) && Valid()
    {
      this.nonce, transactions, attemptCount, hasAbandoned := nonce, [], 0, false;
    }

    /** Counts from the first; only entries that reached the network. */
    method NumPendingTransactions() returns (n: nat)
      ensures n == |SentTxs(transactions)|
    {
      n := 0;
      for i := 0 to |transactions|
        invariant n == |SentTxs(transactions[..i])|
      {
        assert transactions[..i + 1] == transactions[..i] + [transactions[i]];
        SentAppend(transactions[..i], transactions[i]);
        if transactions[i].hash.Some? { n := n + 1; }
      }
      assert transactions[..|transactions|] == transactions;
    }

    method PushTransaction(hash: Option<Hash>, fees: GasFees, exempt: bool, senders: set<Address>)
      modifies this`transactions
      ensures Value() == Push(old(Value()), hash, fees, exempt, senders)
    {
      transactions := transactions + [Tx(hash, fees, attemptCount, exempt, nonce, senders)];
    }

    method SendTransaction(txNonce: Option<nat>, fees: GasFees, senders: set<Address>, answer: SendAnswer)
      returns (r: SendResult)
      requires Valid()
      modifies this
      ensures Valid() && (Value(), r) == Tracking.SendTransaction(old(Value()), txNonce, fees, senders, answer, percent)
    {
      SendKeeps(Value(), txNonce, fees, senders, answer, percent);
      if !Acceptable(Value(), txNonce, fees, percent) { return Failed(Other); }
      if answer.Accepted? {
        PushTransaction(Some(answer.hash), fees, hasAbandoned, senders);
        hasAbandoned := false;
        attemptCount := attemptCount + 1;
        return Sent(answer.hash);
      }
      if answer.error.Underpriced? || answer.error.ReplacementUnderpriced? {
        if Outbids(Value(), fees) { PushTransaction(None, fees, false, senders); }
        hasAbandoned := false;
        attemptCount := attemptCount + 1;
      }
      return Failed(answer.error);
    }

    /** The last transaction that reached the network. */
    method LastSent() returns (tx: Option<Tx>)
      ensures var sent := SentTxs(transactions); tx == if sent == [] then None else Some(sent[|sent| - 1])
    {
      var n: nat := |transactions|;
      assert transactions[..n] == transactions;
      while n > 0
        invariant n <= |transactions| && SentTxs(transactions[..n]) == SentTxs(transactions)
      {
        assert transactions[..n][..n - 1] == transactions[..n - 1];
        if transactions[n - 1].hash.Some? { return Some(transactions[n - 1]); }
        n := n - 1;
      }
      return None;
    }

    method FeesToCancel(estimated: GasFees) returns (fees: GasFees)
      ensures fees == CancelFees(Value(), estimated, percent)
    {
      var last := LastSent();
      if last.None? { return estimated; }
      var increased := last.value.fees.Increase(percent);
      return GasFees(Max(increased.maxFee, estimated.maxFee), Max(increased.maxPriorityFee, estimated.maxPriorityFee));
    }

    method CancelTransaction(estimated: GasFees, answer: CancelAnswer) returns (r: SendResult)
      requires Valid()
      modifies this
      ensures Valid() && (Value(), r) == Tracking.CancelTransaction(old(Value()), estimated, answer, percent)
    {
      CancelKeeps(Value(), estimated, answer, percent);
      var fees := FeesToCancel(estimated);
      if answer.SoftCancelled? {
        Reset(answer.fetched);
        return SoftCancel;
      }
      if answer.CancelSent? {
        PushTransaction(Some(answer.hash), fees, false, {});
        attemptCount := attemptCount + 1;
        return Sent(answer.hash);
      }
      if answer.error.Underpriced? || answer.error.ReplacementUnderpriced? {
        if Outbids(Value(), fees) { PushTransaction(None, fees, false, {}); }
        return Failed(ReplacementUnderpriced);
      }
      return Failed(answer.error);
    }

    method ProcessUpdate(update: AddressUpdate, receipts: Hash -> Receipt) returns (r: UpdateResult)
      requires Valid()
      modifies this
      ensures Valid() && (Value(), r) == Tracking.ProcessUpdate(old(Value()), update, receipts)
    {
      UpdateKeeps(Value(), update, receipts, percent);
      balance := update.balance;
      if update.nonce.None? || nonce > update.nonce.value { return Updated(None); }
      r := FindMined(update, receipts);
      if r.Updated? { SetNonceAndClearState(update.nonce.value + 1); }
    }

    method FindMined(update: AddressUpdate, receipts: Hash -> Receipt) returns (r: UpdateResult)
      ensures r == Report(transactions, update, receipts, nonce, NonceUsedForOtherTx(nonce))
    {
      var out := NonceUsedForOtherTx(nonce);
      var n: nat := |transactions|;
      assert transactions[..n] == transactions;
      while n > 0
        invariant n <= |transactions|
        invariant Report(transactions[..n], update, receipts, nonce, out)
               == Report(transactions, update, receipts, nonce, NonceUsedForOtherTx(nonce))
      {
        n := n - 1;
        assert transactions[..n + 1][..n] == transactions[..n];
        var tx := transactions[n];
        if !IsMined(tx, update.mined) { continue; }
        var receipt := receipts(tx.hash.value);
        if receipt.Unavailable? { return UpdateError; }
        if receipt.Missing? { continue; }
        out := Mined(tx.hash.value, nonce, tx.attempt, receipt);
      }
      return Updated(Some(out));
    }

    method Reset(fetched: Option<Account>)
      modifies this
      ensures Valid() && Value() == Tracking.Reset(old(Value()), fetched)
    {
      var account := if fetched.Some? then fetched.value else Account(nonce, balance);
      SetNonceAndClearState(account.nonce);
      balance := account.balance;
    }

    method Abandon()
      requires Valid()
      modifies this
      ensures Valid() && Value() == old(Value()).(abandoned := true, attempts := 0)
    {
      hasAbandoned := true;
      attemptCount := 0;
    }

    method Unabandon()
      requires Valid()
      modifies this
      ensures Valid() && Value() == old(Value()).(abandoned := false)
    {
      hasAbandoned := false;
    }
  }
}
