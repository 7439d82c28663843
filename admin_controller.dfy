/**
 * The admin's ledger actions: settling a bill through an invoice, confirming
 * a refund, topping up a user's balance, adding an invoice, editing a bill,
 * and the balance summary. Users and bills named in the route must exist
 * (a missing one is a 404).
 */
module AdminController {
  import opened Money
  import opened Models
  import opened Database

  // ---------------------------------------------------------------------------
  // Bill settlement arithmetic (exact amounts in thousandths of a cent).
  // ---------------------------------------------------------------------------

  /** The settlement fee: 2% of the invoice amount, unrounded. */
  function SettlementFee(invoice: Cents): (fee: int)
    ensures 100 * fee == 2 * (FinePerCent * invoice)
  {
    20 * invoice
  }

  /** The System Fees Account's share: 20% of the fee, unrounded. */
  function FeesAccountShare(invoice: Cents): (share: int)
    ensures 100 * share == 20 * SettlementFee(invoice)
  {
    4 * invoice
  }

  /** The fatorah account's share: 80% of the fee plus whatever the unseen
      helper `integerValue` makes of the invoice amount less the fee. */
  function FatorahAccountShare(invoice: Cents, integerValue: int -> int): (share: int)
    ensures 100 * (share - integerValue(FinePerCent * invoice - SettlementFee(invoice))) == 80 * SettlementFee(invoice)
  {
    16 * invoice + integerValue(FinePerCent * invoice - SettlementFee(invoice))
  }

  /** The settlement's transaction record as the decimal(15,2) columns store
      it: a completed payment of the invoice less the fee, the fee, the invoice
      as total_amount, referencing the invoice. */
  function SettlementRecord(user: nat, invoice: Cents, invoiceId: nat): (tx: TxRow)
    ensures tx.userId == user && tx.kind == Payment && tx.status == TxCompleted && tx.totalAmount == invoice
    ensures tx.fee == RoundToCents(SettlementFee(invoice))
    ensures tx.amount == RoundToCents(FinePerCent * invoice - SettlementFee(invoice))
    ensures tx.referenceId == Some(invoiceId) && tx.refundableUntil.None? && tx.thirdPartyAppId.None?
  {
    TxRow(user, None, Payment, RoundToCents(FinePerCent * invoice - SettlementFee(invoice)),
          RoundToCents(SettlementFee(invoice)), invoice, TxCompleted, Some(invoiceId), None)
  }

  /** The bill after a settlement: a null amount counts as 0 and grows by the
      invoice amount; the due date becomes `now`. */
  function SettledBill(bill: BillRow, invoice: Cents, now: int): (bill': BillRow)
    ensures bill'.amount.Some? && bill'.dueDate == Some(now)
    ensures bill'.amount.value == (if bill.amount.Some? then bill.amount.value else 0) + invoice
    ensures bill'.(amount := bill.amount, dueDate := bill.dueDate) == bill
  {
    bill.(amount := Some((if bill.amount.Some? then bill.amount.value else 0) + invoice), dueDate := Some(now))
  }

  /** What createInvoiceForBill's checks accept before any write. */
  predicate SettlementAccepted(d: Db, user: nat, bill: nat, amount: Cents)
  {
    user < |d.users| && bill < |d.bills| && amount >= MinAmount && d.users[user].balance >= amount
  }

  /**
   * createInvoiceForBill as committed: a paid invoice for the bill, the
   * payment record, one Fee row per system account (each found by name), each
   * account's balance raised by its share as its column stores it, the user
   * debited the invoice amount, and the bill's amount raised by it. A missing
   * system account makes the Fee insert fail and the whole settlement roll
   * back. The bill is not checked to be the user's.
   */
  function BillSettled(d: Db, user: nat, bill: nat, amount: Cents, now: int, integerValue: int -> int): (r: Result<Db>)
    ensures user < |d.users| && bill < |d.bills| && amount >= MinAmount ==>
      (r == Err(InsufficientFunds) <==> d.users[user].balance < amount)
    ensures r.Ok? <==>
      (&& SettlementAccepted(d, user, bill, amount)
       && SystemAccountNamed(d.systemAccounts, FeesAccountName).Some?
       && SystemAccountNamed(d.systemAccounts, FatorahAccountName).Some?)
  {
    if user >= |d.users| || bill >= |d.bills| then Err(NotFound)
    else if amount < MinAmount then Err(InvalidInput)
    else if d.users[user].balance < amount then Err(InsufficientFunds)
    else
      var feesAccount := SystemAccountNamed(d.systemAccounts, FeesAccountName);
      var fatorahAccount := SystemAccountNamed(d.systemAccounts, FatorahAccountName);
      if feesAccount.None? || fatorahAccount.None? then Err(OperationFailed)
      else Ok(Settle(d, user, bill, amount, now, feesAccount.value, fatorahAccount.value, integerValue))
  }

  /** The rows a settlement inserts: the paid invoice, the payment record and
      a Fee row for each system account. */
  function SettlementRows(d: Db, user: nat, bill: nat, amount: Cents, fa: nat, fo: nat, integerValue: int -> int): Db
  {
    var txId := |d.transactions|;
    d.(invoices := d.invoices + [InvoiceRow(user, Some(bill), amount, Paid)],
       transactions := d.transactions + [SettlementRecord(user, amount, |d.invoices|)],
       fees := d.fees + [FeeRow(txId, RoundToCents(FeesAccountShare(amount)), Some(fa)),
                         FeeRow(txId, RoundToCents(FatorahAccountShare(amount, integerValue)), Some(fo))])
  }

  /** The balances and bill a settlement updates: each system account
      credited its share, the user debited the invoice, the bill settled. */
  function SettlementUpdates(d: Db, user: nat, bill: nat, amount: Cents, now: int, fa: nat, fo: nat, integerValue: int -> int): Db
    requires user < |d.users| && bill < |d.bills| && fa < |d.systemAccounts| && fo < |d.systemAccounts|
  {
    var d1 := WithSystemBalance(d, fa, RoundToCents(FinePerCent * d.systemAccounts[fa].balance + FeesAccountShare(amount)));
    var d2 := WithSystemBalance(d1, fo, RoundToCents(FinePerCent * d.systemAccounts[fo].balance + FatorahAccountShare(amount, integerValue)));
    var d3 := WithUserBalance(d2, user, d.users[user].balance - amount);
    d3.(bills := d.bills[bill := SettledBill(d.bills[bill], amount, now)])
  }

  /** The writes of a settlement whose system accounts are `fa` and `fo`. */
  function Settle(d: Db, user: nat, bill: nat, amount: Cents, now: int, fa: nat, fo: nat, integerValue: int -> int): Db
    requires user < |d.users| && bill < |d.bills| && fa < |d.systemAccounts| && fo < |d.systemAccounts|
  {
    SettlementUpdates(SettlementRows(d, user, bill, amount, fa, fo, integerValue), user, bill, amount, now, fa, fo, integerValue)
  }

  /**
   * confirmRefund as committed: the refund becomes completed and its
   * transaction refunded; the refund's user is credited its amount (not the
   * fee); the refund's app, when there is one, is debited the amount; and
   * when fee_refunded is positive the first system account is debited it.
   * No debit is checked against a balance. A refund whose transaction or user
   * is missing, or a positive fee with no system account, fails.
   */
  function RefundConfirmed(d: Db, id: nat): (r: Result<Db>)
    ensures id >= |d.refunds| ==> r == Err(NotFound)
    ensures id < |d.refunds| ==> (r == Err(AlreadyProcessed) <==> d.refunds[id].status != RefundPending)
    ensures r.Ok? <==>
      (&& id < |d.refunds| && d.refunds[id].status == RefundPending
       && d.refunds[id].transactionId < |d.transactions| && d.refunds[id].userId < |d.users|
       && (d.refunds[id].feeRefunded > 0 ==> |d.systemAccounts| > 0))
  {
    if id >= |d.refunds| then Err(NotFound)
    else
      var refund := d.refunds[id];
      if refund.status != RefundPending then Err(AlreadyProcessed)
      else if refund.transactionId >= |d.transactions| || refund.userId >= |d.users| then Err(OperationFailed)
      else if refund.feeRefunded > 0 && |d.systemAccounts| == 0 then Err(OperationFailed)
      else
        var t := refund.transactionId;
        var d1 := d.(refunds := d.refunds[id := refund.(status := RefundCompleted)],
                     transactions := d.transactions[t := d.transactions[t].(status := TxRefunded)]);
        var d2 := WithUserBalance(d1, refund.userId, d.users[refund.userId].balance + refund.amount);
        var d3 := if AppAttached(d, refund)
                  then WithUserBalance(d2, refund.thirdPartyAppId.value, d2.users[refund.thirdPartyAppId.value].balance - refund.amount)
                  else d2;
        Ok(if refund.feeRefunded > 0
           then WithSystemBalance(d3, 0, d.systemAccounts[0].balance - refund.feeRefunded)
           else d3)
  }

  /** `$refund->thirdPartyApp` is loaded: the refund names an existing app row. */
  predicate AppAttached(d: Db, refund: RefundRow)
  {
    refund.thirdPartyAppId.Some? && refund.thirdPartyAppId.value < |d.users|
  }

  /** The writes confirmRefund performs, numbered in the controller's order: the
      refund, the transaction, the user, the app when attached, and the system
      account when a fee is refunded. */
  function ConfirmWrites(d: Db, refund: RefundRow): (steps: set<nat>)
    ensures {0, 1, 2} <= steps <= {0, 1, 2, 3, 4}
    ensures 3 in steps <==> AppAttached(d, refund)
    ensures 4 in steps <==> refund.feeRefunded > 0
  {
    {0, 1, 2} + (if AppAttached(d, refund) then {3} else {}) + (if refund.feeRefunded > 0 then {4} else {})
  }

  /** increaseUserBalance as committed: the balance grows by the amount and a
      fee-free completed deposit is recorded. */
  function AdminDeposit(d: Db, user: nat, amount: Cents): (r: Result<Db>)
    ensures r.Ok? <==> user < |d.users| && amount >= MinAmount
  {
    if user >= |d.users| then Err(NotFound)
    else if amount < MinAmount then Err(InvalidInput)
    else
      var d' := WithUserBalance(d, user, d.users[user].balance + amount);
      Ok(d'.(transactions := d.transactions + [WalletRecord(user, Deposit, amount)]))
  }

  /** addInvoice: a paid invoice for an existing user and, when given, an
      existing bill; no balance moves. */
  function InvoiceAdded(d: Db, user: nat, bill: Option<nat>, amount: Cents): (r: Result<Db>)
    ensures r.Ok? <==> user < |d.users| && amount >= MinAmount && (bill.Some? ==> bill.value < |d.bills|)
  {
    if user >= |d.users| || amount < MinAmount || (bill.Some? && bill.value >= |d.bills|) then Err(InvalidInput)
    else Ok(d.(invoices := d.invoices + [InvoiceRow(user, bill, amount, Paid)]))
  }

  /** editBill: a given bill_info (at most 255 characters) and a given status
      replace the bill's; nothing else changes. */
  function BillEdited(d: Db, id: nat, info: Option<string>, status: Option<BillStatus>): (r: Result<Db>)
    ensures info.Some? && |info.value| > 255 ==> r == Err(InvalidInput)
    ensures r.Ok? <==> (info.Some? ==> |info.value| <= 255) && id < |d.bills|
  {
    if info.Some? && |info.value| > 255 then Err(InvalidInput)
    else if id >= |d.bills| then Err(NotFound)
    else
      var bill := d.bills[id];
      Ok(d.(bills := d.bills[id := bill.(billInfo := if info.Some? then info.value else bill.billInfo,
                                         status := if status.Some? then status.value else bill.status)]))
  }

  /** The figures getSummary reports. */
  datatype SummaryView = SummaryView(
    systemAccounts: seq<SystemAccount>,
    overallBalance: int,
    totalTransactions: nat,
    totalUsers: nat,
    totalBills: nat)

  /** The name getSummary shows for a system account: the two seeded
      accounts under their Arabic names, any other as stored. */
  function DisplayName(name: string): string
  {
    if name == FeesAccountName then "حساب رسوم النظام"
    else if name == FatorahAccountName then "حساب فاتورة "
    else name
  }

  /** getSummary: every system account (renamed for display) with its
      balance, the overall balance (system accounts plus every users row) and
      the table counts. */
  function Summary(d: Db): (s: SummaryView)
    ensures |s.systemAccounts| == |d.systemAccounts|
    ensures forall i :: 0 <= i < |d.systemAccounts| ==>
      s.systemAccounts[i] == SystemAccount(DisplayName(d.systemAccounts[i].name), d.systemAccounts[i].balance)
    ensures s.overallBalance == OverallBalance(d)
    ensures s.totalTransactions == |d.transactions| && s.totalUsers == |d.users| && s.totalBills == |d.bills|
  {
    var shown := seq(|d.systemAccounts|, i requires 0 <= i < |d.systemAccounts| =>
      SystemAccount(DisplayName(d.systemAccounts[i].name), d.systemAccounts[i].balance));
    SummaryView(shown, TotalSystemBalance(d.systemAccounts) + TotalUserBalance(d.users),
                |d.transactions|, |d.users|, |d.bills|)
  }

  // ---------------------------------------------------------------------------
  // The controller actions, write by write.
  // ---------------------------------------------------------------------------

  /**
   * createInvoiceForBill. After the checks, inside one database transaction
   * (see WriteSettlement); any failure rolls all back. On success the new
   * invoice's id.
   */
  method CreateInvoiceForBill(db: Store, user: nat, bill: nat, amount: Cents, now: int, integerValue: int -> int,
                              failAt: Option<nat>) returns (r: Result<nat>)
    modifies db
    ensures var spec := BillSettled(old(db.State()), user, bill, amount, now, integerValue);
      if spec.Err? then r == Err(spec.error) && db.State() == old(db.State())
      else if failAt.Some? && failAt.value < 8 then r == Err(OperationFailed) && db.State() == old(db.State())
      else r == Ok(|old(db.invoices)|) && db.State() == spec.value
  {
    if user >= |db.users| || bill >= |db.bills| {
      return Err(NotFound);
    }
    if amount < MinAmount {
      return Err(InvalidInput);
    }
    if db.users[user].balance < amount {
      return Err(InsufficientFunds);
    }
    var snapshot := db.State();
    var feesAccount, fatorahAccount, ok := WriteSettlementRows(db, user, bill, amount, integerValue, failAt);
    if !ok {
      db.Rollback(snapshot);
      return Err(OperationFailed);
    }
    ok := WriteSettlementUpdates(db, user, bill, amount, now, feesAccount.value, fatorahAccount.value, integerValue, failAt);
    if !ok {
      db.Rollback(snapshot);
      return Err(OperationFailed);
    }
    r := Ok(|snapshot.invoices|);
  }

  /**
   * The first writes of createInvoiceForBill: 0 the invoice, 1 the
   * transaction, 2 and 3 the two Fee rows, each refused when its system
   * account was not found. Stops at the first failure, leaving what it wrote.
   */
  method WriteSettlementRows(db: Store, user: nat, bill: nat, amount: Cents, integerValue: int -> int, failAt: Option<nat>)
    returns (feesAccount: Option<nat>, fatorahAccount: Option<nat>, ok: bool)
    modifies db
    ensures feesAccount == SystemAccountNamed(old(db.systemAccounts), FeesAccountName)
    ensures fatorahAccount == SystemAccountNamed(old(db.systemAccounts), FatorahAccountName)
    ensures ok <==> feesAccount.Some? && fatorahAccount.Some? && !(failAt.Some? && failAt.value < 4)
    ensures ok ==> db.State() == SettlementRows(old(db.State()), user, bill, amount, feesAccount.value, fatorahAccount.value, integerValue)
  {
    feesAccount := SystemAccountNamed(db.systemAccounts, FeesAccountName);
    fatorahAccount := SystemAccountNamed(db.systemAccounts, FatorahAccountName);
    if Throws(failAt, 0) { return feesAccount, fatorahAccount, false; }
    var invoiceId := db.CreateInvoice(InvoiceRow(user, Some(bill), amount, Paid));
    if Throws(failAt, 1) { return feesAccount, fatorahAccount, false; }
    var txId := db.CreateTransaction(SettlementRecord(user, amount, invoiceId));
    if Throws(failAt, 2) { return feesAccount, fatorahAccount, false; }
    ok := db.InsertFee(FeeRow(txId, RoundToCents(FeesAccountShare(amount)), feesAccount));
    if !ok { return; }
    if Throws(failAt, 3) { return feesAccount, fatorahAccount, false; }
    ok := db.InsertFee(FeeRow(txId, RoundToCents(FatorahAccountShare(amount, integerValue)), fatorahAccount));
  }

  /**
   * The remaining writes of createInvoiceForBill: 4 and 5 the two system
   * balances (each the balance read before the writes plus its share), 6
   * the user's balance, 7 the bill. Stops at the first failure.
   */
  method WriteSettlementUpdates(db: Store, user: nat, bill: nat, amount: Cents, now: int, fa: nat, fo: nat,
                                integerValue: int -> int, failAt: Option<nat>) returns (ok: bool)
    requires user < |db.users| && bill < |db.bills| && fa < |db.systemAccounts| && fo < |db.systemAccounts|
    modifies db
    ensures ok <==> !(failAt.Some? && 4 <= failAt.value < 8)
    ensures ok ==> db.State() == SettlementUpdates(old(db.State()), user, bill, amount, now, fa, fo, integerValue)
  {
    var feesBalance, fatorahBalance := db.systemAccounts[fa].balance, db.systemAccounts[fo].balance;
    var userBalance, billRow := db.users[user].balance, db.bills[bill];
    if Throws(failAt, 4) { return false; }
    db.SaveSystemBalance(fa, RoundToCents(FinePerCent * feesBalance + FeesAccountShare(amount)));
    if Throws(failAt, 5) { return false; }
    db.SaveSystemBalance(fo, RoundToCents(FinePerCent * fatorahBalance + FatorahAccountShare(amount, integerValue)));
    if Throws(failAt, 6) { return false; }
    db.SaveUserBalance(user, userBalance - amount);
    if Throws(failAt, 7) { return false; }
    db.SaveBill(bill, SettledBill(billRow, amount, now));
    ok := true;
  }

  /**
   * confirmRefund. After the checks, inside one database transaction: writes
   * 0 the refund's status, 1 the transaction's status, 2 the user's balance,
   * 3 the app's balance when attached, 4 the first system account's balance
   * when a fee is refunded. Any failure rolls all back. On success the
   * refund's id.
   */
  method ConfirmRefund(db: Store, id: nat, failAt: Option<nat>) returns (r: Result<nat>)
    modifies db
    ensures var spec := RefundConfirmed(old(db.State()), id);
      if spec.Err? then r == Err(spec.error) && db.State() == old(db.State())
      else if failAt.Some? && failAt.value in ConfirmWrites(old(db.State()), old(db.refunds[id])) then
        r == Err(OperationFailed) && db.State() == old(db.State())
      else r == Ok(id) && db.State() == spec.value
  {
    if id >= |db.refunds| {
      return Err(NotFound);
    }
    var refund := db.refunds[id];
    if refund.status != RefundPending {
      return Err(AlreadyProcessed);
    }
    var snapshot := db.State();

    if Throws(failAt, 0) { db.Rollback(snapshot); return Err(OperationFailed); }
    db.SaveRefundStatus(id, RefundCompleted);

    var t := refund.transactionId;
    if t >= |db.transactions| || Throws(failAt, 1) { db.Rollback(snapshot); return Err(OperationFailed); }
    db.SaveTransactionStatus(t, TxRefunded);

    var u := refund.userId;
    if u >= |db.users| || Throws(failAt, 2) { db.Rollback(snapshot); return Err(OperationFailed); }
    db.SaveUserBalance(u, db.users[u].balance + refund.amount);

    if refund.thirdPartyAppId.Some? && refund.thirdPartyAppId.value < |db.users| {
      var app := refund.thirdPartyAppId.value;
      if Throws(failAt, 3) { db.Rollback(snapshot); return Err(OperationFailed); }
      db.SaveUserBalance(app, db.users[app].balance - refund.amount);
    }

    if refund.feeRefunded > 0 {
      if |db.systemAccounts| == 0 || Throws(failAt, 4) { db.Rollback(snapshot); return Err(OperationFailed); }
      db.SaveSystemBalance(0, db.systemAccounts[0].balance - refund.feeRefunded);
    }
    r := Ok(id);
  }

  /** increaseUserBalance. Inside one database transaction: writes 0 the
      balance, 1 the deposit record; a failure rolls both back. On success the
      new transaction's id. */
  method IncreaseUserBalance(db: Store, user: nat, amount: Cents, failAt: Option<nat>) returns (r: Result<nat>)
    modifies db
    ensures var spec := AdminDeposit(old(db.State()), user, amount);
      if spec.Err? then r == Err(spec.error) && db.State() == old(db.State())
      else if failAt == Some(0) || failAt == Some(1) then r == Err(OperationFailed) && db.State() == old(db.State())
      else r == Ok(|old(db.transactions)|) && db.State() == spec.value
  {
    if user >= |db.users| {
      return Err(NotFound);
    }
    if amount < MinAmount {
      return Err(InvalidInput);
    }
    var snapshot := db.State();
    if Throws(failAt, 0) { db.Rollback(snapshot); return Err(OperationFailed); }
    db.SaveUserBalance(user, db.users[user].balance + amount);
    if Throws(failAt, 1) { db.Rollback(snapshot); return Err(OperationFailed); }
    var txId := db.CreateTransaction(WalletRecord(user, Deposit, amount));
    r := Ok(txId);
  }

  /** addInvoice. Write: 0 the invoice; on success its id. */
  method AddInvoice(db: Store, user: nat, bill: Option<nat>, amount: Cents, failAt: Option<nat>) returns (r: Result<nat>)
    modifies db
    ensures var spec := InvoiceAdded(old(db.State()), user, bill, amount);
      if spec.Err? then r == Err(spec.error) && db.State() == old(db.State())
      else if Throws(failAt, 0) then r == Err(OperationFailed) && db.State() == old(db.State())
      else r == Ok(|old(db.invoices)|) && db.State() == spec.value
  {
    if user >= |db.users| || amount < MinAmount || (bill.Some? && bill.value >= |db.bills|) {
      return Err(InvalidInput);
    }
    if Throws(failAt, 0) {
      return Err(OperationFailed);
    }
    var id := db.CreateInvoice(InvoiceRow(user, bill, amount, Paid));
    r := Ok(id);
  }

  /** editBill. Write: 0 the bill; on success its id. */
  method EditBill(db: Store, id: nat, info: Option<string>, status: Option<BillStatus>, failAt: Option<nat>)
    returns (r: Result<nat>)
    modifies db
    ensures var spec := BillEdited(old(db.State()), id, info, status);
      if spec.Err? then r == Err(spec.error) && db.State() == old(db.State())
      else if Throws(failAt, 0) then r == Err(OperationFailed) && db.State() == old(db.State())
      else r == Ok(id) && db.State() == spec.value
  {
    if info.Some? && |info.value| > 255 {
      return Err(InvalidInput);
    }
    if id >= |db.bills| {
      return Err(NotFound);
    }
    var bill := db.bills[id];
    if info.Some? {
      bill := bill.(billInfo := info.value);
    }
    if status.Some? {
      bill := bill.(status := status.value);
    }
    if Throws(failAt, 0) {
      return Err(OperationFailed);
    }
    db.SaveBill(id, bill);
    r := Ok(id);
  }

  // ---------------------------------------------------------------------------
  // Properties.
  // ---------------------------------------------------------------------------

  /** A committed settlement debits the user exactly the invoice amount and
      credits each system account exactly the amount of its own Fee row: the
      rounded 20% share of the fee for the fees account, the rounded 80% share
      plus `integerValue` for the fatorah account. It records the paid invoice
      and the payment that references it, settles the bill (amount raised by
      the invoice, due date now) and leaves the other bills alone; the ledger
      total moves by the two Fee rows less the invoice. */
  lemma BillSettledEffect(d: Db, user: nat, bill: nat, amount: Cents, now: int, integerValue: int -> int)
    requires BillSettled(d, user, bill, amount, now, integerValue).Ok?
    ensures var d' := BillSettled(d, user, bill, amount, now, integerValue).value;
      var fa := SystemAccountNamed(d.systemAccounts, FeesAccountName).value;
      var fo := SystemAccountNamed(d.systemAccounts, FatorahAccountName).value;
      && SettlementBalances(d, d', user, fa, fo, amount)
      && SettlementRecords(d, d', user, bill, amount, fa, fo)
      && d'.fees[|d.fees|].amount == RoundToCents(FeesAccountShare(amount))
      && d'.fees[|d.fees| + 1].amount == RoundToCents(FatorahAccountShare(amount, integerValue))
      && d'.bills == d.bills[bill := SettledBill(d.bills[bill], amount, now)]
      && d'.fees[..|d.fees|] == d.fees
  {
    var fa := SystemAccountNamed(d.systemAccounts, FeesAccountName).value;
    var fo := SystemAccountNamed(d.systemAccounts, FatorahAccountName).value;
    assert fa != fo by {
      assert d.systemAccounts[fa].name == FeesAccountName && d.systemAccounts[fo].name == FatorahAccountName;
      assert FeesAccountName[7] != FatorahAccountName[7];
    }
    SettleBalances(d, user, bill, amount, now, fa, fo, integerValue);
  }

  /** How a settlement through accounts `fa` and `fo` moves money: the user
      debited the invoice, each account credited its own Fee row's amount,
      nobody else touched, the ledger total moved by the Fee rows less the
      invoice. */
  ghost predicate SettlementBalances(d: Db, d': Db, user: nat, fa: nat, fo: nat, amount: Cents)
    requires user < |d.users| && fa < |d.systemAccounts| && fo < |d.systemAccounts|
  {
    && |d'.users| == |d.users| && |d'.systemAccounts| == |d.systemAccounts| && |d'.fees| == |d.fees| + 2
    && d'.users[user] == d.users[user].(balance := d.users[user].balance - amount)
    && (forall j :: 0 <= j < |d.users| && j != user ==> d'.users[j] == d.users[j])
    && d'.systemAccounts[fa] == d.systemAccounts[fa].(balance := d.systemAccounts[fa].balance + d'.fees[|d.fees|].amount)
    && d'.systemAccounts[fo] == d.systemAccounts[fo].(balance := d.systemAccounts[fo].balance + d'.fees[|d.fees| + 1].amount)
    && (forall j :: 0 <= j < |d.systemAccounts| && j != fa && j != fo ==> d'.systemAccounts[j] == d.systemAccounts[j])
    && OverallBalance(d') == OverallBalance(d) - amount + d'.fees[|d.fees|].amount + d'.fees[|d.fees| + 1].amount
  }

  /** The rows a settlement through accounts `fa` and `fo` leaves: a Fee row
      per account for the new payment, the paid invoice, the payment record
      referencing it, the bill's amount raised by the invoice, refunds as
      they were. */
  ghost predicate SettlementRecords(d: Db, d': Db, user: nat, bill: nat, amount: Cents, fa: nat, fo: nat)
    requires bill < |d.bills|
  {
    && |d'.fees| == |d.fees| + 2 && |d'.bills| == |d.bills|
    && d'.fees[|d.fees|].systemAccountId == Some(fa) && d'.fees[|d.fees| + 1].systemAccountId == Some(fo)
    && d'.fees[|d.fees|].transactionId == |d.transactions| && d'.fees[|d.fees| + 1].transactionId == |d.transactions|
    && d'.invoices == d.invoices + [InvoiceRow(user, Some(bill), amount, Paid)]
    && d'.transactions == d.transactions + [SettlementRecord(user, amount, |d.invoices|)]
    && d'.bills[bill].amount == Some((if d.bills[bill].amount.Some? then d.bills[bill].amount.value else 0) + amount)
    && d'.refunds == d.refunds
  }

  /** The money movements of a settlement through two distinct accounts: a
      column holding `balance + share` holds `balance + RoundToCents(share)`,
      which is exactly the account's Fee row. */
  lemma SettleBalances(d: Db, user: nat, bill: nat, amount: Cents, now: int, fa: nat, fo: nat, integerValue: int -> int)
    requires user < |d.users| && bill < |d.bills| && fa < |d.systemAccounts| && fo < |d.systemAccounts| && fa != fo
    ensures SettlementBalances(d, Settle(d, user, bill, amount, now, fa, fo, integerValue), user, fa, fo, amount)
  {
    var feesShare, fatorahShare := FeesAccountShare(amount), FatorahAccountShare(amount, integerValue);
    RoundToCentsShift(d.systemAccounts[fa].balance, feesShare);
    RoundToCentsShift(d.systemAccounts[fo].balance, fatorahShare);
    var d1 := SettlementRows(d, user, bill, amount, fa, fo, integerValue);
    var feesBalance := RoundToCents(FinePerCent * d.systemAccounts[fa].balance + feesShare);
    var fatorahBalance := RoundToCents(FinePerCent * d.systemAccounts[fo].balance + fatorahShare);
    var d2 := WithSystemBalance(d1, fa, feesBalance);
    var d3 := WithSystemBalance(d2, fo, fatorahBalance);
    var d4 := WithUserBalance(d3, user, d.users[user].balance - amount);
    var d' := Settle(d, user, bill, amount, now, fa, fo, integerValue);
    assert d' == d4.(bills := d.bills[bill := SettledBill(d.bills[bill], amount, now)]);
    assert d'.fees[|d.fees|].amount == RoundToCents(feesShare);
    assert d'.fees[|d.fees| + 1].amount == RoundToCents(fatorahShare);
    assert d'.systemAccounts[fa].balance == feesBalance;
    assert d'.systemAccounts[fo].balance == fatorahBalance;
    calc {
      OverallBalance(d');
      OverallBalance(d4);
      { OverallUserUpdate(d3, user, d.users[user].balance - amount); }
      OverallBalance(d3) - amount;
      { OverallSystemUpdate(d2, fo, fatorahBalance); }
      OverallBalance(d2) - d.systemAccounts[fo].balance + fatorahBalance - amount;
      { OverallSystemUpdate(d1, fa, feesBalance); }
      OverallBalance(d1) - d.systemAccounts[fa].balance + feesBalance - d.systemAccounts[fo].balance + fatorahBalance - amount;
    }
  }

  /** A settlement keeps the refunds table well formed. */
  lemma BillSettledWellFormed(d: Db, user: nat, bill: nat, amount: Cents, now: int, integerValue: int -> int)
    requires WellFormed(d)
    requires BillSettled(d, user, bill, amount, now, integerValue).Ok?
    ensures WellFormed(BillSettled(d, user, bill, amount, now, integerValue).value)
  {
    var d' := BillSettled(d, user, bill, amount, now, integerValue).value;
    assert d'.refunds == d.refunds && d'.transactions[..|d.transactions|] == d.transactions;
    forall i | 0 <= i < |d'.refunds| && d'.refunds[i].status == RefundCompleted
      ensures d'.transactions[d'.refunds[i].transactionId].status == TxRefunded
    {
      assert d'.transactions[d'.refunds[i].transactionId] == d.transactions[d.refunds[i].transactionId];
    }
  }

  /** The stored payment record's amount and fee add up to its total_amount,
      except for an invoice whose cents end in 25 or 75 (a half cent on both
      sides, both rounded up), where they exceed it by one cent. */
  lemma SettlementRecordSplit(user: nat, invoice: Cents, invoiceId: nat)
    ensures var tx := SettlementRecord(user, invoice, invoiceId);
      tx.amount + tx.fee == tx.totalAmount + (if invoice % 50 == 25 then 1 else 0)
  {
    var q, r := invoice / 50, invoice % 50;
    assert invoice == 50 * q + r;
    var fee := q + (if r >= 25 then 1 else 0);
    var net := invoice - q - (if r > 25 then 1 else 0);
    RoundToCentsUnique(SettlementFee(invoice), fee);
    RoundToCentsUnique(FinePerCent * invoice - SettlementFee(invoice), net);
  }

  /** A settlement of 200.00: the fee is 4.00, stored as a 196.00 payment
      with a 4.00 fee; the fees account receives 0.80, the fatorah account
      3.20 plus `integerValue` of the 196.00 left after the fee. */
  lemma SettlementOfTwoHundred(user: nat, invoiceId: nat, integerValue: int -> int)
    ensures SettlementRecord(user, 20000, invoiceId).amount == 19600
    ensures SettlementRecord(user, 20000, invoiceId).fee == 400
    ensures RoundToCents(FeesAccountShare(20000)) == 80
    ensures FatorahAccountShare(20000, integerValue) == 320 * FinePerCent + integerValue(19600 * FinePerCent)
  {
  }

  /** A committed confirmation completes the refund and marks its
      transaction refunded, and nothing else in those tables or in the fees,
      invoices and bills tables changes; the
      refunds table stays well formed, the transaction can no longer be
      refunded, and a second confirmation is refused. */
  lemma RefundConfirmedRecords(d: Db, id: nat, now: int)
    requires WellFormed(d)
    requires RefundConfirmed(d, id).Ok?
    ensures var d' := RefundConfirmed(d, id).value;
      var refund := d.refunds[id];
      var t := refund.transactionId;
      && WellFormed(d')
      && d'.refunds == d.refunds[id := refund.(status := RefundCompleted)]
      && d'.transactions == d.transactions[t := d.transactions[t].(status := TxRefunded)]
      && d'.fees == d.fees && d'.invoices == d.invoices && d'.bills == d.bills
      && !IsRefundable(d'.transactions[t], now)
      && RefundConfirmed(d', id) == Err(AlreadyProcessed)
  {
    var refund := d.refunds[id];
    var t := refund.transactionId;
    var d' := RefundConfirmed(d, id).value;
    assert d'.refunds == d.refunds[id := refund.(status := RefundCompleted)];
    assert d'.transactions == d.transactions[t := d.transactions[t].(status := TxRefunded)];
    forall i | 0 <= i < |d'.refunds| && d'.refunds[i].status == RefundCompleted
      ensures d'.transactions[d'.refunds[i].transactionId].status == TxRefunded
    {
      if i != id {
        assert d.refunds[i].transactionId != t;
      }
    }
  }

  /** A committed confirmation credits the refund's user the amount, debits
      the attached app the amount (the two cancel when they are the same row)
      and the first system account the refunded fee when it is positive, and
      leaves the fees, invoices and bills tables alone; the ledger total moves
      by the same. */
  lemma RefundConfirmedBalances(d: Db, id: nat)
    requires RefundConfirmed(d, id).Ok?
    ensures var d' := RefundConfirmed(d, id).value;
      var refund := d.refunds[id];
      var u := refund.userId;
      var appDebit := if AppAttached(d, refund) then refund.amount else 0;
      var feeDebit := if refund.feeRefunded > 0 then refund.feeRefunded else 0;
      && |d'.users| == |d.users| && |d'.systemAccounts| == |d.systemAccounts|
      && (!AppAttached(d, refund) || refund.thirdPartyAppId.value != u ==>
            d'.users[u] == d.users[u].(balance := d.users[u].balance + refund.amount))
      && (AppAttached(d, refund) && refund.thirdPartyAppId.value == u ==> d'.users[u] == d.users[u])
      && (AppAttached(d, refund) && refund.thirdPartyAppId.value != u ==>
            d'.users[refund.thirdPartyAppId.value]
              == d.users[refund.thirdPartyAppId.value].(balance := d.users[refund.thirdPartyAppId.value].balance - refund.amount))
      && (forall j :: 0 <= j < |d.users| && j != u && (AppAttached(d, refund) ==> j != refund.thirdPartyAppId.value) ==>
            d'.users[j] == d.users[j])
      && (|d.systemAccounts| > 0 ==> d'.systemAccounts[0] == d.systemAccounts[0].(balance := d.systemAccounts[0].balance - feeDebit))
      && (forall j :: 0 < j < |d.systemAccounts| ==> d'.systemAccounts[j] == d.systemAccounts[j])
      && d'.fees == d.fees && d'.invoices == d.invoices && d'.bills == d.bills
      && OverallBalance(d') == OverallBalance(d) + refund.amount - appDebit - feeDebit
  {
    var refund := d.refunds[id];
    var t := refund.transactionId;
    var d1 := d.(refunds := d.refunds[id := refund.(status := RefundCompleted)],
                 transactions := d.transactions[t := d.transactions[t].(status := TxRefunded)]);
    var d2 := WithUserBalance(d1, refund.userId, d.users[refund.userId].balance + refund.amount);
    OverallUserUpdate(d1, refund.userId, d.users[refund.userId].balance + refund.amount);
    var d3 := d2;
    if AppAttached(d, refund) {
      var app := refund.thirdPartyAppId.value;
      d3 := WithUserBalance(d2, app, d2.users[app].balance - refund.amount);
      OverallUserUpdate(d2, app, d2.users[app].balance - refund.amount);
    }
    assert OverallBalance(d3) == OverallBalance(d) + refund.amount - (if AppAttached(d, refund) then refund.amount else 0);
    if refund.feeRefunded > 0 {
      OverallSystemUpdate(d3, 0, d.systemAccounts[0].balance - refund.feeRefunded);
      assert RefundConfirmed(d, id).value == WithSystemBalance(d3, 0, d.systemAccounts[0].balance - refund.feeRefunded);
    } else {
      assert RefundConfirmed(d, id).value == d3;
    }
  }

  /** An admin top-up credits exactly the amount, records a fee-free completed
      deposit, touches no other row or table, keeps the refunds table well formed and raises the ledger total
      by the amount. */
  lemma AdminDepositEffect(d: Db, user: nat, amount: Cents)
    requires WellFormed(d)
    requires AdminDeposit(d, user, amount).Ok?
    ensures var d' := AdminDeposit(d, user, amount).value;
      && WellFormed(d')
      && d'.users[user] == d.users[user].(balance := d.users[user].balance + amount)
      && (forall j :: 0 <= j < |d.users| && j != user ==> d'.users[j] == d.users[j])
      && |d'.users| == |d.users|
      && d'.transactions == d.transactions + [WalletRecord(user, Deposit, amount)]
      && d'.(users := d.users, transactions := d.transactions) == d
      && OverallBalance(d') == OverallBalance(d) + amount
  {
    var d' := AdminDeposit(d, user, amount).value;
    OverallUserUpdate(d, user, d.users[user].balance + amount);
    forall i | 0 <= i < |d'.refunds| && d'.refunds[i].status == RefundCompleted
      ensures d'.transactions[d'.refunds[i].transactionId].status == TxRefunded
    {
      assert d'.transactions[d'.refunds[i].transactionId] == d.transactions[d.refunds[i].transactionId];
    }
  }

  /** addInvoice appends the paid invoice and changes nothing else: no
      balance moves and the refunds table stays well formed. */
  lemma InvoiceAddedEffect(d: Db, user: nat, bill: Option<nat>, amount: Cents)
    requires InvoiceAdded(d, user, bill, amount).Ok?
    ensures var d' := InvoiceAdded(d, user, bill, amount).value;
      && d'.(invoices := d.invoices) == d
      && d'.invoices == d.invoices + [InvoiceRow(user, bill, amount, Paid)]
      && OverallBalance(d') == OverallBalance(d)
      && (WellFormed(d) ==> WellFormed(d'))
  {
  }

  /** editBill replaces at most that bill's info and status and changes
      nothing else: no other bill, no balance, and the refunds table stays well
      formed. */
  lemma BillEditedEffect(d: Db, id: nat, info: Option<string>, status: Option<BillStatus>)
    requires BillEdited(d, id, info, status).Ok?
    ensures var d' := BillEdited(d, id, info, status).value;
      && d'.(bills := d.bills) == d
      && d'.bills == d.bills[id := d.bills[id].(billInfo := if info.Some? then info.value else d.bills[id].billInfo,
                                              status := if status.Some? then status.value else d.bills[id].status)]
      && d'.bills[id].(billInfo := d.bills[id].billInfo, status := d.bills[id].status) == d.bills[id]
      && OverallBalance(d') == OverallBalance(d)
      && (WellFormed(d) ==> WellFormed(d'))
  {
  }

  /** While no balance is negative, the overall balance getSummary reports is
      not negative either. */
  lemma SummaryNonNegative(d: Db)
    requires forall j :: 0 <= j < |d.users| ==> d.users[j].balance >= 0
    requires forall j :: 0 <= j < |d.systemAccounts| ==> d.systemAccounts[j].balance >= 0
    ensures Summary(d).overallBalance >= 0
  {
    TotalUserBalanceNonNegative(d.users);
    TotalSystemBalanceNonNegative(d.systemAccounts);
  }

  /** The summary is self-consistent: its overall balance is the balances it
      lists plus the users' balances, renaming notwithstanding. */
  lemma SummaryAddsUp(d: Db)
    ensures TotalSystemBalance(Summary(d).systemAccounts) + TotalUserBalance(d.users) == Summary(d).overallBalance
  {
    TotalSystemBalanceOfBalances(Summary(d).systemAccounts, d.systemAccounts);
  }
}
