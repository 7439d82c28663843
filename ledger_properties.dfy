/**
 * Properties that span several controller actions: a third-party payment
 * refunded end to end, and a worked example of a payment.
 */
module LedgerProperties {
  import opened Money
  import opened Models
  import opened Database
  import ThirdPartyController
  import AdminController

  /**
   * A payment from a user other than the app, refunded at the app's request
   * and confirmed by an admin: the app and the first system account are back
   * where they started, the payer has lost just the fee (the refund returns
   * the amount only), the transaction is marked refunded, and the ledger
   * total has shrunk by the fee, which the confirmation takes back from the
   * system account without returning it to anyone.
   */
  lemma PaymentRefundRoundTrip(d: Db, app: nat, phone: string, amount: Cents, refundableUntil: int,
                               now: int, later: int, basisPoints: nat)
    requires WellFormed(d) && app < |d.users|
    requires ThirdPartyController.ThirdPartyPayment(d, app, phone, amount, refundableUntil, now, basisPoints).Ok?
    requires UserByPhone(d.users, phone) != Some(app)
    requires later <= refundableUntil
    ensures var d1 := ThirdPartyController.ThirdPartyPayment(d, app, phone, amount, refundableUntil, now, basisPoints).value;
      var t := |d.transactions|;
      var requested := ThirdPartyController.AppRefundRequested(d1, app, t, later);
      requested.Ok? &&
      var confirmed := AdminController.RefundConfirmed(requested.value, |d.refunds|);
      confirmed.Ok? &&
      var d3 := confirmed.value;
      var payer := UserByPhone(d.users, phone).value;
      var fee := PercentageFee(amount, basisPoints);
      && WellFormed(d3)
      && d3.users[payer].balance == d.users[payer].balance - fee
      && d3.users[app].balance == d.users[app].balance
      && d3.systemAccounts[0].balance == d.systemAccounts[0].balance
      && d3.transactions[t].status == TxRefunded
      && OverallBalance(d3) == OverallBalance(d) - fee
  {
    var payer := UserByPhone(d.users, phone).value;
    var fee := PercentageFee(amount, basisPoints);
    var t := |d.transactions|;
    var d1 := ThirdPartyController.ThirdPartyPayment(d, app, phone, amount, refundableUntil, now, basisPoints).value;
    ThirdPartyController.PaymentConserves(d, app, phone, amount, refundableUntil, now, basisPoints);
    assert d1.refunds == d.refunds;
    assert WellFormed(d1) by {
      forall i | 0 <= i < |d1.refunds| && d1.refunds[i].status == RefundCompleted
        ensures d1.transactions[d1.refunds[i].transactionId].status == TxRefunded
      {
        assert d1.transactions[d1.refunds[i].transactionId] == d.transactions[d.refunds[i].transactionId];
      }
    }
    assert !HasRefund(d1.refunds, t) by {
      forall i | 0 <= i < |d1.refunds|
        ensures d1.refunds[i].transactionId != t
      {
        assert d.refunds[i].transactionId < |d.transactions|;
      }
    }
    assert d1.transactions[t] == ThirdPartyController.PaymentRecord(payer, app, amount, fee, refundableUntil);
    ThirdPartyController.AppRefundRequestedEffect(d1, app, t, later);
    var d2 := ThirdPartyController.AppRefundRequested(d1, app, t, later).value;
    var id := |d.refunds|;
    var refund := d2.refunds[id];
    assert refund == RefundRow(t, payer, Some(app), amount, fee, RefundPending);
    PercentageFeeBounds(amount, basisPoints);
    AdminController.RefundConfirmedRecords(d2, id, later);
    AdminController.RefundConfirmedBalances(d2, id);
  }

  /**
   * A worked payment: a user holding 100.00 is charged 50.00 by an app
   * holding nothing, at 2%. The fee is 1.00; the committed transfer leaves the
   * user 49.00, the app 50.00 and the fees account 1.00. The Fee row as the
   * ThirdPartyController writes it, with no system account, is one the fees
   * table refuses, so initiateTransaction answers an error instead.
   */
  lemma WorkedPayment()
    ensures var d := Db([UserRow("user", "0599000001", UserRole, 10000),
                          UserRow("app", "0599000002", ThirdPartyAppRole, 0)],
                         SeededSystemAccounts(), [], [], [], [], []);
      var r := ThirdPartyController.ThirdPartyPayment(d, 1, "0599000001", 5000, 100, 0, 200);
      && PercentageFee(5000, 200) == 100
      && r.Ok?
      && r.value.users[0].balance == 4900
      && r.value.users[1].balance == 5000
      && r.value.systemAccounts[0].balance == 100
      && r.value.transactions == [ThirdPartyController.PaymentRecord(0, 1, 5000, 100, 100)]
      && !FeeRowInsertable(r.value, FeeRow(0, 100, None))
  {
    var users := [UserRow("user", "0599000001", UserRole, 10000),
                  UserRow("app", "0599000002", ThirdPartyAppRole, 0)];
    assert users[0].phone == "0599000001";
    assert UserByPhone(users, "0599000001") == Some(0);
  }
}
