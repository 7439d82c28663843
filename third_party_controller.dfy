/**
 * What a signed-in third-party app does: charge a user (identified by phone)
 * with a percentage fee, and ask for a refund of one of its own transactions.
 * The caller `app` is the authenticated app, an existing users row.
 *
 * The fee percentage is a parameter in hundredths of a percent: the users
 * table has no fee_percentage column, so the configured default always
 * applies.
 */
module ThirdPartyController {
  import opened Money
  import opened Models
  import opened Database

  /** What validation accepts: the phone is some user's, the amount is at
      least a cent, and the refund deadline lies after `now`. */
  predicate PaymentInputValid(d: Db, phone: string, amount: Cents, refundableUntil: int, now: int)
  {
    UserByPhone(d.users, phone).Some? && amount >= MinAmount && refundableUntil > now
  }

  /** The payment record: completed, net amount, fee and their sum, with the
      app and the caller's refund deadline. */
  function PaymentRecord(payer: nat, app: nat, amount: Cents, fee: Cents, refundableUntil: int): (tx: TxRow)
    ensures tx.userId == payer && tx.amount == amount && tx.fee == fee
    ensures tx.kind == Payment && tx.status == TxCompleted && tx.totalAmount == tx.amount + tx.fee
    ensures tx.thirdPartyAppId == Some(app) && tx.refundableUntil == Some(refundableUntil)
  {
    TxRow(payer, Some(app), Payment, amount, fee, amount + fee, TxCompleted, None, Some(refundableUntil))
  }

  /**
   * What initiateTransaction's database transaction would commit if its Fee
   * row named the system account it credits (the controller leaves that
   * column out, and the fees table refuses such a row: see
   * InitiateTransaction).
   * Everything else follows the controller's writes in order: the payer is
   * debited amount + fee, the app's row is saved from the copy loaded when it
   * authenticated, plus the amount, and the first system account is credited
   * the fee. A missing system account makes the transfer fail.
   */
  function ThirdPartyPayment(d: Db, app: nat, phone: string, amount: Cents, refundableUntil: int, now: int,
                             basisPoints: nat): (r: Result<Db>)
    requires app < |d.users|
    ensures !PaymentInputValid(d, phone, amount, refundableUntil, now) ==> r == Err(InvalidInput)
    ensures PaymentInputValid(d, phone, amount, refundableUntil, now) ==>
      var payer := UserByPhone(d.users, phone).value;
      (r == Err(InsufficientFunds) <==> d.users[payer].balance < amount + PercentageFee(amount, basisPoints))
    ensures r.Ok? <==>
      (&& PaymentInputValid(d, phone, amount, refundableUntil, now)
       && d.users[UserByPhone(d.users, phone).value].balance >= amount + PercentageFee(amount, basisPoints)
       && |d.systemAccounts| > 0)
  {
    if !PaymentInputValid(d, phone, amount, refundableUntil, now) then Err(InvalidInput)
    else
      var payer := UserByPhone(d.users, phone).value;
      var fee := PercentageFee(amount, basisPoints);
      var total := amount + fee;
      if d.users[payer].balance < total then Err(InsufficientFunds)
      else if |d.systemAccounts| == 0 then Err(OperationFailed)
      else Ok(Transfer(d, payer, app, amount, fee, refundableUntil))
  }

  /** The writes of a committed payment, in the controller's order: the payer
      debited amount + fee, the app's row saved from its stale copy plus the
      amount, the first system account credited the fee, then the payment
      record and its Fee row. */
  function Transfer(d: Db, payer: nat, app: nat, amount: Cents, fee: Cents, refundableUntil: int): Db
    requires payer < |d.users| && app < |d.users| && |d.systemAccounts| > 0
  {
    var d1 := WithUserBalance(d, payer, d.users[payer].balance - (amount + fee));
    var d2 := WithUserBalance(d1, app, d.users[app].balance + amount);
    var d3 := WithSystemBalance(d2, 0, d.systemAccounts[0].balance + fee);
    d3.(transactions := d.transactions + [PaymentRecord(payer, app, amount, fee, refundableUntil)],
        fees := d.fees + [FeeRow(|d.transactions|, fee, Some(0))])
  }

  /** The pending refund the app's request creates: the transaction's amount
      and fee, for the transaction's user, against the calling app. */
  function AppRefundRow(txId: nat, app: nat, tx: TxRow): RefundRow
  {
    RefundRow(txId, tx.userId, Some(app), tx.amount, tx.fee, RefundPending)
  }

  /** requestRefund: only transactions whose third_party_app_id is the caller
      are found; the transaction must be refundable at `now` and have no
      refund yet. */
  function AppRefundRequested(d: Db, app: nat, txId: nat, now: int): (r: Result<Db>)
    ensures r.Ok? <==>
      txId < |d.transactions| && d.transactions[txId].thirdPartyAppId == Some(app)
      && IsRefundable(d.transactions[txId], now) && !HasRefund(d.refunds, txId)
  {
    if txId >= |d.transactions| then Err(InvalidInput)
    else if d.transactions[txId].thirdPartyAppId != Some(app) then Err(NotFound)
    else if !IsRefundable(d.transactions[txId], now) then Err(NotRefundable)
    else if HasRefund(d.refunds, txId) then Err(AlreadyRequested)
    else Ok(d.(refunds := d.refunds + [AppRefundRow(txId, app, d.transactions[txId])]))
  }

  // ---------------------------------------------------------------------------
  // The controller actions, write by write.
  // ---------------------------------------------------------------------------

  /**
   * initiateTransaction as written. After the checks it opens a database
   * transaction, saves the payer's debit, the app's credit and the system
   * account's fee, creates the transaction record and then the Fee row
   * without payment_system_account_id. The fees table refuses that row, the
   * exception handler rolls everything back, and the caller gets an error:
   * wherever the intended transfer would commit, this one fails and the
   * database is left as it was.
   */
  method InitiateTransaction(db: Store, app: nat, phone: string, amount: Cents, refundableUntil: int, now: int,
                             basisPoints: nat) returns (r: Result<nat>)
    requires app < |db.users|
    modifies db
    ensures var spec := ThirdPartyPayment(old(db.State()), app, phone, amount, refundableUntil, now, basisPoints);
      r == if spec.Err? then Err(spec.error) else Err(OperationFailed)
    ensures db.State() == old(db.State())
  {
    if !PaymentInputValid(db.State(), phone, amount, refundableUntil, now) {
      return Err(InvalidInput);
    }
    var appBalance := db.users[app].balance;
    var payer := UserByPhone(db.users, phone).value;
    var fee := PercentageFee(amount, basisPoints);
    var total := amount + fee;
    if db.users[payer].balance < total {
      return Err(InsufficientFunds);
    }
    var snapshot := db.State();
    db.SaveUserBalance(payer, db.users[payer].balance - total);
    db.SaveUserBalance(app, appBalance + amount);
    if |db.systemAccounts| == 0 {
      db.Rollback(snapshot);
      return Err(OperationFailed);
    }
    db.SaveSystemBalance(0, db.systemAccounts[0].balance + fee);
    var txId := db.CreateTransaction(PaymentRecord(payer, app, amount, fee, refundableUntil));
    var recorded := db.InsertFee(FeeRow(txId, fee, None));
    assert !recorded;
    db.Rollback(snapshot);
    r := Err(OperationFailed);
  }

  /** requestRefund. Write: 0 the refund row; on success the new refund's id. */
  method RequestRefund(db: Store, app: nat, txId: nat, now: int, failAt: Option<nat>) returns (r: Result<nat>)
    modifies db
    ensures var spec := AppRefundRequested(old(db.State()), app, txId, now);
      if spec.Err? then r == Err(spec.error) && db.State() == old(db.State())
      else if Throws(failAt, 0) then r == Err(OperationFailed) && db.State() == old(db.State())
      else r == Ok(|old(db.refunds)|) && db.State() == spec.value
  {
    if txId >= |db.transactions| {
      return Err(InvalidInput);
    }
    var tx := db.transactions[txId];
    if tx.thirdPartyAppId != Some(app) {
      return Err(NotFound);
    }
    if !IsRefundable(tx, now) {
      return Err(NotRefundable);
    }
    var i := 0;
    while i < |db.refunds|
      invariant 0 <= i <= |db.refunds|
      invariant forall k :: 0 <= k < i ==> db.refunds[k].transactionId != txId
    {
      if db.refunds[i].transactionId == txId {
        return Err(AlreadyRequested);
      }
      i := i + 1;
    }
    if Throws(failAt, 0) {
      return Err(OperationFailed);
    }
    var id := db.CreateRefund(AppRefundRow(txId, app, tx));
    r := Ok(id);
  }

  // ---------------------------------------------------------------------------
  // Properties.
  // ---------------------------------------------------------------------------

  /** A committed payment from a user other than the app: the payer pays
      amount + fee, the app gains the amount, the first system account gains
      the fee, nobody else changes, one completed payment and one Fee row are
      recorded, refunds, invoices and bills are untouched, and the ledger total is conserved. */
  lemma PaymentConserves(d: Db, app: nat, phone: string, amount: Cents, refundableUntil: int, now: int,
                         basisPoints: nat)
    requires app < |d.users|
    requires ThirdPartyPayment(d, app, phone, amount, refundableUntil, now, basisPoints).Ok?
    requires UserByPhone(d.users, phone) != Some(app)
    ensures var d' := ThirdPartyPayment(d, app, phone, amount, refundableUntil, now, basisPoints).value;
      var payer := UserByPhone(d.users, phone).value;
      var fee := PercentageFee(amount, basisPoints);
      && |d'.users| == |d.users| && |d'.systemAccounts| == |d.systemAccounts|
      && d'.users[payer] == d.users[payer].(balance := d.users[payer].balance - (amount + fee))
      && d'.users[app] == d.users[app].(balance := d.users[app].balance + amount)
      && d'.systemAccounts[0] == d.systemAccounts[0].(balance := d.systemAccounts[0].balance + fee)
      && (forall j :: 0 <= j < |d.users| && j != payer && j != app ==> d'.users[j] == d.users[j])
      && (forall j :: 0 < j < |d.systemAccounts| ==> d'.systemAccounts[j] == d.systemAccounts[j])
      && d'.transactions == d.transactions + [PaymentRecord(payer, app, amount, fee, refundableUntil)]
      && d'.fees == d.fees + [FeeRow(|d.transactions|, fee, Some(0))]
      && d'.refunds == d.refunds && d'.invoices == d.invoices && d'.bills == d.bills
      && OverallBalance(d') == OverallBalance(d)
  {
    var payer := UserByPhone(d.users, phone).value;
    TransferConserves(d, payer, app, amount, PercentageFee(amount, basisPoints), refundableUntil);
  }

  /** The balance moves of a transfer between two distinct users. */
  lemma TransferConserves(d: Db, payer: nat, app: nat, amount: Cents, fee: Cents, refundableUntil: int)
    requires payer < |d.users| && app < |d.users| && |d.systemAccounts| > 0 && payer != app
    ensures var d' := Transfer(d, payer, app, amount, fee, refundableUntil);
      && |d'.users| == |d.users| && |d'.systemAccounts| == |d.systemAccounts|
      && d'.users[payer] == d.users[payer].(balance := d.users[payer].balance - (amount + fee))
      && d'.users[app] == d.users[app].(balance := d.users[app].balance + amount)
      && d'.systemAccounts[0] == d.systemAccounts[0].(balance := d.systemAccounts[0].balance + fee)
      && OverallBalance(d') == OverallBalance(d)
  {
    var d1 := WithUserBalance(d, payer, d.users[payer].balance - (amount + fee));
    var d2 := WithUserBalance(d1, app, d.users[app].balance + amount);
    var d3 := WithSystemBalance(d2, 0, d.systemAccounts[0].balance + fee);
    OverallUserUpdate(d, payer, d.users[payer].balance - (amount + fee));
    assert OverallBalance(d1) == OverallBalance(d) - (amount + fee);
    OverallUserUpdate(d1, app, d.users[app].balance + amount);
    assert OverallBalance(d2) == OverallBalance(d) - fee;
    OverallSystemUpdate(d2, 0, d.systemAccounts[0].balance + fee);
    assert OverallBalance(d3) == OverallBalance(d);
    var d' := Transfer(d, payer, app, amount, fee, refundableUntil);
    assert d'.users == d3.users && d'.systemAccounts == d3.systemAccounts;
  }

  /** When an app charges its own phone number, the copy of its row loaded at
      authentication is saved after the debit and overwrites it: the app ends
      with its old balance plus the amount, and the ledger total grows by the
      whole amount + fee. */
  lemma SelfPaymentMints(d: Db, app: nat, phone: string, amount: Cents, refundableUntil: int, now: int,
                         basisPoints: nat)
    requires app < |d.users|
    requires ThirdPartyPayment(d, app, phone, amount, refundableUntil, now, basisPoints).Ok?
    requires UserByPhone(d.users, phone) == Some(app)
    ensures var d' := ThirdPartyPayment(d, app, phone, amount, refundableUntil, now, basisPoints).value;
      var fee := PercentageFee(amount, basisPoints);
      && d'.users[app] == d.users[app].(balance := d.users[app].balance + amount)
      && OverallBalance(d') == OverallBalance(d) + amount + fee
  {
    var fee := PercentageFee(amount, basisPoints);
    var d1 := WithUserBalance(d, app, d.users[app].balance - (amount + fee));
    var d2 := WithUserBalance(d1, app, d.users[app].balance + amount);
    OverallUserUpdate(d, app, d.users[app].balance - (amount + fee));
    OverallUserUpdate(d1, app, d.users[app].balance + amount);
    OverallSystemUpdate(d2, 0, d.systemAccounts[0].balance + fee);
  }

  /** An app's refund request appends one pending refund for the
      transaction's user that mirrors its amount and fee, changes nothing
      else, and keeps the refunds table well
      formed (still at most one refund per transaction). */
  lemma AppRefundRequestedEffect(d: Db, app: nat, txId: nat, now: int)
    requires WellFormed(d)
    requires AppRefundRequested(d, app, txId, now).Ok?
    ensures var d' := AppRefundRequested(d, app, txId, now).value;
      && WellFormed(d')
      && d'.(refunds := d.refunds) == d
      && |d'.refunds| == |d.refunds| + 1 && d'.refunds[..|d.refunds|] == d.refunds
      && var row := d'.refunds[|d.refunds|];
         row.status == RefundPending && row.userId == d.transactions[txId].userId && row.transactionId == txId
         && row.amount == d.transactions[txId].amount && row.feeRefunded == d.transactions[txId].fee
         && row.thirdPartyAppId == Some(app)
  {
    var d' := AppRefundRequested(d, app, txId, now).value;
    forall i, j | 0 <= i < j < |d'.refunds|
      ensures d'.refunds[i].transactionId != d'.refunds[j].transactionId
    {
      if j == |d.refunds| {
        assert d.refunds[i].transactionId != txId;
      }
    }
  }
}
