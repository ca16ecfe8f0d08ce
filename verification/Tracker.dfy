/** The transactions a builder has outstanding at one nonce, as a value
    (transaction_tracker.rs). */
module Tracking {
  import opened Primitives
  import opened Percent

  /** `hash` is present when the transaction reached the network. The last three fields
      record what the code forgets: whether it was a bundle sent while the earlier ones were
      abandoned, the nonce it was made for, and the senders of its operations. */
  datatype Tx = Tx(hash: Option<Hash>, fees: GasFees, attempt: nat, exempt: bool, madeAt: nat, senders: set<Address>)

  datatype Tracker = Tracker(nonce: nat, balance: nat, txs: seq<Tx>, abandoned: bool, attempts: nat)

  datatype TxError =
    | NonceTooLow | Underpriced | ReplacementUnderpriced | ConditionNotMet | TxRejected | InsufficientFunds | Other

  datatype Account = Account(nonce: nat, balance: nat)

  /** What the transaction sender answers to a send and to a cancellation. */
  datatype SendAnswer = Accepted(hash: Hash) | Refused(error: TxError)
  datatype CancelAnswer =
    | CancelSent(hash: Hash) | SoftCancelled(fetched: Option<Account>) | CancelRefused(error: TxError)

  datatype SendResult = Sent(hash: Hash) | SoftCancel | Failed(error: TxError)

  // ---------------------------------------------------------------- queries

  function SentTxs(txs: seq<Tx>): (r: seq<Tx>)
    ensures |r| <= |txs|
  {
    if txs == [] then []
    else SentTxs(txs[..|txs| - 1]) + if txs[|txs| - 1].hash.Some? then [txs[|txs| - 1]] else []
  }

  function RequiredFees(t: Tracker, percent: nat): Option<GasFees> {
    if t.abandoned || t.txs == [] then None else Some(t.txs[|t.txs| - 1].fees.Increase(percent))
  }

  predicate Acceptable(t: Tracker, nonce: Option<nat>, fees: GasFees, percent: nat) {
    && nonce == Some(t.nonce)
    && (RequiredFees(t, percent).Some? ==> RequiredFees(t, percent).value.AtMost(fees))
  }

  predicate Outbids(t: Tracker, fees: GasFees) {
    t.txs == [] || t.txs[|t.txs| - 1].fees.StrictlyBelow(fees)
  }

  // ---------------------------------------------------------------- operations

  function Clear(t: Tracker, nonce: nat): Tracker {
    Tracker(nonce, t.balance, [], false, 0)
  }

  /** When the account cannot be read, its nonce and balance stay as they were. */
  function Reset(t: Tracker, fetched: Option<Account>): Tracker {
    if fetched.Some? then Clear(t, fetched.value.nonce).(balance := fetched.value.balance) else Clear(t, t.nonce)
  }

  function Push(t: Tracker, hash: Option<Hash>, fees: GasFees, exempt: bool, senders: set<Address>): Tracker {
    t.(txs := t.txs + [Tx(hash, fees, t.attempts, exempt, t.nonce, senders)])
  }

  function SendTransaction(t: Tracker, nonce: Option<nat>, fees: GasFees, senders: set<Address>, answer: SendAnswer,
                           percent: nat)
    : (r: (Tracker, SendResult))
  {
    if !Acceptable(t, nonce, fees, percent) then (t, Failed(Other))
    else
      match answer
      case Accepted(hash) =>
        (Push(t, Some(hash), fees, t.abandoned, senders).(abandoned := false, attempts := t.attempts + 1),
         Sent(hash))
      case Refused(error) =>
        if error.Underpriced? || error.ReplacementUnderpriced? then
          ((if Outbids(t, fees) then Push(t, None, fees, false, senders) else t)
             .(abandoned := false, attempts := t.attempts + 1),
           Failed(error))
        else (t, Failed(error))
  }

  /** At least the increase over the last transaction that was sent. */
  function CancelFees(t: Tracker, estimated: GasFees, percent: nat): GasFees {
    var sent := SentTxs(t.txs);
    if sent == [] then estimated
    else
      var increased := sent[|sent| - 1].fees.Increase(percent);
      GasFees(Max(increased.maxFee, estimated.maxFee), Max(increased.maxPriorityFee, estimated.maxPriorityFee))
  }

  function CancelTransaction(t: Tracker, estimated: GasFees, answer: CancelAnswer, percent: nat)
    : (r: (Tracker, SendResult))
  {
    var fees := CancelFees(t, estimated, percent);
    match answer
    case CancelSent(hash) => (Push(t, Some(hash), fees, false, {}).(attempts := t.attempts + 1), Sent(hash))
    case SoftCancelled(fetched) => (Reset(t, fetched), SoftCancel)
    case CancelRefused(error) =>
      if error.Underpriced? || error.ReplacementUnderpriced? then
        (if Outbids(t, fees) then Push(t, None, fees, false, {}) else t, Failed(ReplacementUnderpriced))
      else (t, Failed(error))
  }

  datatype AddressUpdate = AddressUpdate(nonce: Option<nat>, balance: nat, mined: set<Hash>)
  datatype Receipt = Found(blockNumber: nat, isSuccess: bool) | Missing | Unavailable
  datatype TrackerUpdate =
    | Mined(hash: Hash, nonce: nat, attempt: nat, receipt: Receipt)
    | NonceUsedForOtherTx(nonce: nat)
  datatype UpdateResult = Updated(update: Option<TrackerUpdate>) | UpdateError

  predicate IsMined(tx: Tx, mined: set<Hash>) {
    tx.hash.Some? && tx.hash.value in mined
  }

  /** The transactions are scanned from the last to the first; the earliest one with a
      receipt is reported, an unreadable receipt gives up. */
  function Report(txs: seq<Tx>, update: AddressUpdate, receipts: Hash -> Receipt, nonce: nat,
                  found: TrackerUpdate): (r: UpdateResult)
    decreases |txs|
  {
    if txs == [] then Updated(Some(found))
    else
      var n := |txs| - 1;
      var tx := txs[n];
      if !IsMined(tx, update.mined) || receipts(tx.hash.value).Missing? then
        Report(txs[..n], update, receipts, nonce, found)
      else if receipts(tx.hash.value).Unavailable? then UpdateError
      else Report(txs[..n], update, receipts, nonce, Mined(tx.hash.value, nonce, tx.attempt, receipts(tx.hash.value)))
  }

  function ProcessUpdate(t: Tracker, update: AddressUpdate, receipts: Hash -> Receipt): (r: (Tracker, UpdateResult)) {
    var seen := t.(balance := update.balance);
    if update.nonce.None? || t.nonce > update.nonce.value then (seen, Updated(None))
    else
      var result := Report(t.txs, update, receipts, t.nonce, NonceUsedForOtherTx(t.nonce));
      if result.UpdateError? then (seen, result) else (Clear(seen, update.nonce.value + 1), result)
  }

  // ---------------------------------------------------------------- invariants

  predicate Raises(tx: Tx, previous: Tx, percent: nat) {
    tx.exempt || previous.fees.Increase(percent).AtMost(tx.fees)
  }

  predicate RungAt(sent: seq<Tx>, i: nat, percent: nat)
    requires 0 < i < |sent|
  {
    Raises(sent[i], sent[i - 1], percent)
  }

  predicate Ladder(sent: seq<Tx>, percent: nat) {
    forall i | 0 < i < |sent| :: RungAt(sent, i, percent)
  }

  predicate AtNonce(txs: seq<Tx>, nonce: nat) {
    forall i | 0 <= i < |txs| :: txs[i].madeAt == nonce
  }

  predicate LastNotBelow(txs: seq<Tx>) {
    var sent := SentTxs(txs);
    sent != [] ==> txs != [] && sent[|sent| - 1].fees.AtMost(txs[|txs| - 1].fees)
  }

  /** Everything tracked was made for the current nonce; each transaction sent raises both
      fees by the replacement percentage unless it is exempt; the last entry, from which the
      next required fees are computed, is not below the last one sent. */
  predicate TrackerOk(t: Tracker, percent: nat) {
    AtNonce(t.txs, t.nonce) && Ladder(SentTxs(t.txs), percent) && LastNotBelow(t.txs)
  }

  lemma SentAppend(txs: seq<Tx>, tx: Tx)
    ensures SentTxs(txs + [tx]) == SentTxs(txs) + if tx.hash.Some? then [tx] else []
  {
    assert (txs + [tx])[..|txs|] == txs;
  }

  lemma LadderAppend(sent: seq<Tx>, tx: Tx, percent: nat)
    requires Ladder(sent, percent)
    requires sent == [] || Raises(tx, sent[|sent| - 1], percent)
    ensures Ladder(sent + [tx], percent)
  {
    var more := sent + [tx];
    forall i | 0 < i < |more| ensures RungAt(more, i, percent) {
      if i < |sent| { assert RungAt(sent, i, percent); }
    }
  }

  /** A transaction that raises the fees of the last one sent extends the ladder. */
  lemma PushSentKeeps(t: Tracker, hash: Hash, fees: GasFees, exempt: bool, senders: set<Address>, percent: nat)
    requires TrackerOk(t, percent)
    requires exempt || SentTxs(t.txs) == [] || SentTxs(t.txs)[|SentTxs(t.txs)| - 1].fees.Increase(percent).AtMost(fees)
    ensures TrackerOk(Push(t, Some(hash), fees, exempt, senders), percent)
    ensures SentTxs(Push(t, Some(hash), fees, exempt, senders).txs) != []
  {
    var tx := Tx(Some(hash), fees, t.attempts, exempt, t.nonce, senders);
    SentAppend(t.txs, tx);
    LadderAppend(SentTxs(t.txs), tx, percent);
  }

  lemma PushUnsentKeeps(t: Tracker, fees: GasFees, senders: set<Address>, percent: nat)
    requires TrackerOk(t, percent) && Outbids(t, fees)
    ensures TrackerOk(Push(t, None, fees, false, senders), percent)
    ensures SentTxs(Push(t, None, fees, false, senders).txs) == SentTxs(t.txs)
  {
    SentAppend(t.txs, Tx(None, fees, t.attempts, false, t.nonce, senders));
  }

  /** Acceptable fees raise those of the last transaction sent. */
  lemma AcceptableRaises(t: Tracker, nonce: Option<nat>, fees: GasFees, percent: nat)
    requires TrackerOk(t, percent) && Acceptable(t, nonce, fees, percent)
    ensures var sent := SentTxs(t.txs);
            t.abandoned || sent == [] || sent[|sent| - 1].fees.Increase(percent).AtMost(fees)
  {
    var sent := SentTxs(t.txs);
    if sent != [] { IncreaseMonotone(sent[|sent| - 1].fees, t.txs[|t.txs| - 1].fees, percent); }
  }

  lemma {:induction false} SendKeeps(t: Tracker, nonce: Option<nat>, fees: GasFees, senders: set<Address>,
                                     answer: SendAnswer, percent: nat)
    requires TrackerOk(t, percent)
    ensures var (t', result) := SendTransaction(t, nonce, fees, senders, answer, percent);
            && TrackerOk(t', percent) && t'.nonce == t.nonce
            && SentTxs(t'.txs) == SentTxs(t.txs) +
                 if result.Sent? then [Tx(Some(result.hash), fees, t.attempts, t.abandoned, t.nonce, senders)] else []
  {
    if Acceptable(t, nonce, fees, percent) {
      match answer
      case Accepted(hash) =>
        AcceptableRaises(t, nonce, fees, percent);
        PushSentKeeps(t, hash, fees, t.abandoned, senders, percent);
        SentAppend(t.txs, Tx(Some(hash), fees, t.attempts, t.abandoned, t.nonce, senders));
      case Refused(_) => if Outbids(t, fees) { PushUnsentKeeps(t, fees, senders, percent); }
    }
  }

  lemma {:induction false} CancelKeeps(t: Tracker, estimated: GasFees, answer: CancelAnswer, percent: nat)
    requires TrackerOk(t, percent)
    ensures var (t', result) := CancelTransaction(t, estimated, answer, percent);
            && TrackerOk(t', percent)
            && (result.Sent? ==> t'.nonce == t.nonce && exists fees ::
                  SentTxs(t'.txs) == SentTxs(t.txs) + [Tx(Some(result.hash), fees, t.attempts, false, t.nonce, {})])
            && (result.SoftCancel? ==> t'.txs == [])
            && (result.Failed? ==> t'.nonce == t.nonce && SentTxs(t'.txs) == SentTxs(t.txs))
  {
    var fees := CancelFees(t, estimated, percent);
    match answer
    case CancelSent(hash) =>
      PushSentKeeps(t, hash, fees, false, {}, percent);
      SentAppend(t.txs, Tx(Some(hash), fees, t.attempts, false, t.nonce, {}));
    case SoftCancelled(_) =>
    case CancelRefused(_) => if Outbids(t, fees) { PushUnsentKeeps(t, fees, {}, percent); }
  }

  /** A reported update raises the nonce and empties the list; otherwise only the balance
      changes. */
  lemma {:induction false} UpdateKeeps(t: Tracker, update: AddressUpdate, receipts: Hash -> Receipt, percent: nat)
    requires TrackerOk(t, percent)
    ensures var (t', result) := ProcessUpdate(t, update, receipts);
            && TrackerOk(t', percent)
            && (result == Updated(None) || result.UpdateError? ==> t' == t.(balance := update.balance))
            && (result.Updated? && result.update.Some? ==> t'.nonce > t.nonce && t'.txs == [] && !t'.abandoned)
            && (result == Updated(None) <==> update.nonce.None? || update.nonce.value < t.nonce)
  {
    ReportFails(t.txs, update, receipts, t.nonce, NonceUsedForOtherTx(t.nonce));
  }

  predicate Unreadable(tx: Tx, update: AddressUpdate, receipts: Hash -> Receipt) {
    IsMined(tx, update.mined) && receipts(tx.hash.value).Unavailable?
  }

  predicate Readable(tx: Tx, update: AddressUpdate, receipts: Hash -> Receipt) {
    IsMined(tx, update.mined) && receipts(tx.hash.value).Found?
  }

  /** An update fails if and only if some mined transaction has an unreadable receipt. */
  lemma {:induction false} ReportFails(txs: seq<Tx>, update: AddressUpdate, receipts: Hash -> Receipt, nonce: nat,
                                       found: TrackerUpdate)
    ensures var r := Report(txs, update, receipts, nonce, found);
            && (r.UpdateError? <==> exists i | 0 <= i < |txs| :: Unreadable(txs[i], update, receipts))
            && (r.Updated? ==> r.update.Some?)
    decreases |txs|
  {
    if txs != [] {
      var n := |txs| - 1;
      var tx := txs[n];
      if !IsMined(tx, update.mined) || receipts(tx.hash.value).Missing? {
        ReportFails(txs[..n], update, receipts, nonce, found);
      } else if receipts(tx.hash.value).Unavailable? {
        assert Unreadable(txs[n], update, receipts);
      } else {
        ReportFails(txs[..n], update, receipts, nonce,
            Mined(tx.hash.value, nonce, tx.attempt, receipts(tx.hash.value)));
      }
    }
  }

  /** The transaction reported is the earliest one with a receipt. */
  lemma {:induction false} ReportEarliest(txs: seq<Tx>, update: AddressUpdate, receipts: Hash -> Receipt, nonce: nat,
                                          found: TrackerUpdate)
    returns (i: nat)
    requires Report(txs, update, receipts, nonce, found).Updated?
    ensures i <= |txs| && forall j | 0 <= j < i :: !Readable(txs[j], update, receipts)
    ensures i < |txs| ==> Readable(txs[i], update, receipts)
    ensures Report(txs, update, receipts, nonce, found) == Updated(Some(
              if i < |txs| then Mined(txs[i].hash.value, nonce, txs[i].attempt, receipts(txs[i].hash.value))
              else found))
    decreases |txs|
  {
    i := 0;
    if txs != [] {
      var n := |txs| - 1;
      var tx := txs[n];
      if !IsMined(tx, update.mined) || receipts(tx.hash.value).Missing? {
        i := ReportEarliest(txs[..n], update, receipts, nonce, found);
        if i == n { i := |txs|; }
      } else {
        i := ReportEarliest(txs[..n], update, receipts, nonce,
            Mined(tx.hash.value, nonce, tx.attempt, receipts(tx.hash.value)));
      }
    }
  }

  function MaxFees(txs: seq<Tx>): seq<nat> {
    seq(|txs|, i requires 0 <= i < |txs| => txs[i].fees.maxFee)
  }

  function PriorityFees(txs: seq<Tx>): seq<nat> {
    seq(|txs|, i requires 0 <= i < |txs| => txs[i].fees.maxPriorityFee)
  }

  /** Along any stretch of transactions sent without exemption the fees grow geometrically. */
  lemma {:induction false} FeesCompound(t: Tracker, percent: nat, i: nat, k: nat)
    requires TrackerOk(t, percent) && i + k < |SentTxs(t.txs)|
    requires forall j | i < j <= i + k :: !SentTxs(t.txs)[j].exempt
    ensures var sent := SentTxs(t.txs);
            && Pow(100, k) * sent[i + k].fees.maxFee >= Pow(100 + percent, k) * sent[i].fees.maxFee
            && Pow(100, k) * sent[i + k].fees.maxPriorityFee >= Pow(100 + percent, k) * sent[i].fees.maxPriorityFee
  {
    var sent := SentTxs(t.txs);
    var stretch := sent[i..i + k + 1];
    var fs, ps := MaxFees(stretch), PriorityFees(stretch);
    forall g, h | 0 <= g < h < |stretch| && h == g + 1
      ensures fs[h] >= IncreaseByPercentCeil(fs[g], percent) && ps[h] >= IncreaseByPercentCeil(ps[g], percent)
    {
      assert RungAt(sent, i + h, percent);
    }
    LadderCompounds(fs, percent, k);
    LadderCompounds(ps, percent, k);
  }
}
