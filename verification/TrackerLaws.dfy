/** What exactly the tracker accepts, records and asks for. */
module TrackerLaws {
  import opened Primitives
  import opened Percent
  import opened Tracking

  /** Fees are enough to replace others if each is so many percent more. */
  predicate Replaces(fees: GasFees, last: GasFees, percent: nat) {
    && 100 * fees.maxFee >= (100 + percent) * last.maxFee
    && 100 * fees.maxPriorityFee >= (100 + percent) * last.maxPriorityFee
  }

  lemma CeilExactly(n: nat, m: nat, percent: nat)
    ensures IncreaseByPercentCeil(n, percent) <= m <==> (100 + percent) * n <= 100 * m
  {
    TimesIsProduct(n, 100 + percent);
    assert (100 + percent) * n == n * (100 + percent);
  }

  lemma IncreaseExactly(last: GasFees, fees: GasFees, percent: nat)
    ensures last.Increase(percent).AtMost(fees) <==> Replaces(fees, last, percent)
  {
    CeilExactly(last.maxFee, fees.maxFee, percent);
    CeilExactly(last.maxPriorityFee, fees.maxPriorityFee, percent);
  }

  /** A transaction is accepted exactly if it is made for the current nonce and replaces the last
      one recorded, unless there is none or it is abandoned. */
  lemma AcceptableExactly(t: Tracker, nonce: Option<nat>, fees: GasFees, percent: nat)
    ensures Acceptable(t, nonce, fees, percent) <==>
            && nonce == Some(t.nonce)
            && (t.abandoned || t.txs == [] || Replaces(fees, t.txs[|t.txs| - 1].fees, percent))
  {
    if t.txs != [] { IncreaseExactly(t.txs[|t.txs| - 1].fees, fees, percent); }
  }

  /** Both fees are above those of the last one recorded. */
  predicate OutbidsLast(t: Tracker, fees: GasFees) {
    t.txs != [] ==>
      t.txs[|t.txs| - 1].fees.maxFee < fees.maxFee && t.txs[|t.txs| - 1].fees.maxPriorityFee < fees.maxPriorityFee
  }

  /** What is accepted and sent is recorded with its hash. What the network refuses for its price is
      recorded without one if it outbids the last, so that the next attempt has to bid more. Both
      count as attempts and end an abandonment; nothing else changes anything. */
  lemma SendExactly(t: Tracker, nonce: Option<nat>, fees: GasFees, senders: set<Address>, answer: SendAnswer,
                    percent: nat)
    ensures var (t', r) := SendTransaction(t, nonce, fees, senders, answer, percent);
            var ok := && nonce == Some(t.nonce)
                      && (t.abandoned || t.txs == [] || Replaces(fees, t.txs[|t.txs| - 1].fees, percent));
            var price := answer.Refused? && (answer.error.Underpriced? || answer.error.ReplacementUnderpriced?);
            && (!ok ==> t' == t && r == Failed(Other))
            && (ok && answer.Accepted? ==>
                  && r == Sent(answer.hash)
                  && t' == Tracker(t.nonce, t.balance,
                                   t.txs + [Tx(Some(answer.hash), fees, t.attempts, t.abandoned, t.nonce, senders)],
                                   false, t.attempts + 1))
            && (ok && price ==>
                  && r == Failed(answer.error)
                  && t' == Tracker(t.nonce, t.balance,
                                   if OutbidsLast(t, fees)
                                   then t.txs + [Tx(None, fees, t.attempts, false, t.nonce, senders)] else t.txs,
                                   false, t.attempts + 1))
            && (ok && answer.Refused? && !price ==> t' == t && r == Failed(answer.error))
  {
    AcceptableExactly(t, nonce, fees, percent);
  }

  /** A cancellation bids what is estimated, but at least so many percent more than the last
      transaction sent, and nothing beyond that. */
  lemma CancelFeesExactly(t: Tracker, estimated: GasFees, percent: nat)
    ensures var fees, sent := CancelFees(t, estimated, percent), SentTxs(t.txs);
            && estimated.maxFee <= fees.maxFee && estimated.maxPriorityFee <= fees.maxPriorityFee
            && (sent == [] ==> fees == estimated)
            && (sent != [] ==>
                  && Replaces(fees, sent[|sent| - 1].fees, percent)
                  && (fees.maxFee > estimated.maxFee ==>
                        100 * (fees.maxFee - 1) < (100 + percent) * sent[|sent| - 1].fees.maxFee)
                  && (fees.maxPriorityFee > estimated.maxPriorityFee ==>
                        100 * (fees.maxPriorityFee - 1) < (100 + percent) * sent[|sent| - 1].fees.maxPriorityFee))
  {
    var fees, sent := CancelFees(t, estimated, percent), SentTxs(t.txs);
    if sent != [] {
      var last := sent[|sent| - 1].fees;
      IncreaseExactly(last, fees, percent);
      if fees.maxFee > estimated.maxFee { CeilExactly(last.maxFee, fees.maxFee - 1, percent); }
      if fees.maxPriorityFee > estimated.maxPriorityFee {
        CeilExactly(last.maxPriorityFee, fees.maxPriorityFee - 1, percent);
      }
    }
  }

  /** A cancellation that is sent is recorded like a transaction without senders; one refused for its
      price is recorded if it outbids the last and reported as a refused replacement; a soft one
      forgets everything. */
  lemma CancelExactly(t: Tracker, estimated: GasFees, answer: CancelAnswer, percent: nat)
    ensures var (t', r) := CancelTransaction(t, estimated, answer, percent);
            var fees := CancelFees(t, estimated, percent);
            match answer
            case CancelSent(hash) =>
              r == Sent(hash) && t' == t.(txs := t.txs + [Tx(Some(hash), fees, t.attempts, false, t.nonce, {})],
                                          attempts := t.attempts + 1)
            case SoftCancelled(fetched) =>
              r == SoftCancel && t'.txs == [] && !t'.abandoned && t'.attempts == 0
              && (fetched.Some? ==> t'.nonce == fetched.value.nonce && t'.balance == fetched.value.balance)
              && (fetched.None? ==> t'.nonce == t.nonce && t'.balance == t.balance)
            case CancelRefused(error) =>
              if error.Underpriced? || error.ReplacementUnderpriced? then
                && r == Failed(ReplacementUnderpriced)
                && t' == t.(txs := if OutbidsLast(t, fees)
                                   then t.txs + [Tx(None, fees, t.attempts, false, t.nonce, {})] else t.txs)
              else r == Failed(error) && t' == t
  {
  }

  /** An update that reaches the nonce, and whose receipts can be read, moves the tracker to the nonce
      after it and forgets everything; any other only sets the balance. */
  lemma UpdateExactly(t: Tracker, update: AddressUpdate, receipts: Hash -> Receipt)
    ensures var (t', r) := ProcessUpdate(t, update, receipts);
            var reached := update.nonce.Some? && update.nonce.value >= t.nonce;
            && (r == Updated(None) <==> !reached)
            && (reached && r.Updated? ==> t' == Tracker(update.nonce.value + 1, update.balance, [], false, 0))
            && (!reached || r.UpdateError? ==> t' == t.(balance := update.balance))
            && (r.UpdateError? <==> reached && exists i | 0 <= i < |t.txs| :: Unreadable(t.txs[i], update, receipts))
  {
    ReportFails(t.txs, update, receipts, t.nonce, NonceUsedForOtherTx(t.nonce));
  }
}
