/**
 * The ledger's tables and records. Enum domains and nullability follow the
 * migrations; each table is a sequence of rows whose index is the row id
 * (ids are assigned in insertion order and no row of these tables is deleted
 * by the operations modelled here).
 */
module Models {
  import opened Money

  datatype Option<T> = None | Some(value: T)

  /** Failures the controllers answer with (HTTP status in brackets). */
  datatype Error =
    | InvalidInput        // request validation failed [422]
    | NotFound            // a record is missing or not the caller's [404]
    | InsufficientFunds   // balance below the debit [400, 401 for bill settlement]
    | NotRefundable       // Transaction::isRefundable() is false [400]
    | AlreadyRequested    // the transaction already has a refund [400]
    | AlreadyProcessed    // the refund is not pending [400]
    | OperationFailed     // a write threw; the database transaction was rolled back [500]

  datatype Result<T> = Ok(value: T) | Err(error: Error)

  /** users.role */
  datatype Role = UserRole | AdminRole | ThirdPartyAppRole
  /** transactions.type */
  datatype TxType = Deposit | Withdrawal | Payment | RefundTx
  /** transactions.status */
  datatype TxStatus = TxPending | TxCompleted | TxRefunded | TxFailed
  /** refunds.status */
  datatype RefundStatus = RefundPending | RefundCompleted | RefundFailed
  /** invoices.status */
  datatype InvoiceStatus = Unpaid | Paid | Cancelled
  /** bills.status */
  datatype BillStatus = Active | NotActive | MissingInfo

  /** A users row: a user, an admin or a third-party app, all holding a balance. */
  datatype UserRow = UserRow(name: string, phone: string, role: Role, balance: Cents)

  /** A payment_system_accounts row. */
  datatype SystemAccount = SystemAccount(name: string, balance: Cents)

  /** A transactions row; times are instants in seconds. */
  datatype TxRow = TxRow(
    userId: nat,
    thirdPartyAppId: Option<nat>,
    kind: TxType,
    amount: Cents,
    fee: Cents,
    totalAmount: Cents,
    status: TxStatus,
    referenceId: Option<nat>,
    refundableUntil: Option<int>)

  /** A fees row; `systemAccountId` is None when the insert leaves the column out. */
  datatype FeeRow = FeeRow(transactionId: nat, amount: Cents, systemAccountId: Option<nat>)

  /** A refunds row. */
  datatype RefundRow = RefundRow(
    transactionId: nat,
    userId: nat,
    thirdPartyAppId: Option<nat>,
    amount: Cents,
    feeRefunded: Cents,
    status: RefundStatus)

  /** An invoices row. */
  datatype InvoiceRow = InvoiceRow(userId: nat, billId: Option<nat>, amount: Cents, status: InvoiceStatus)

  /** A bills row; `amount` and `dueDate` are nullable columns. */
  datatype BillRow = BillRow(
    userId: nat,
    billType: string,
    billInfo: string,
    amount: Option<Cents>,
    dueDate: Option<int>,
    status: BillStatus)

  /** The whole ledger database. */
  datatype Db = Db(
    users: seq<UserRow>,
    systemAccounts: seq<SystemAccount>,
    transactions: seq<TxRow>,
    fees: seq<FeeRow>,
    refunds: seq<RefundRow>,
    invoices: seq<InvoiceRow>,
    bills: seq<BillRow>)

  /** The smallest amount any money request validates (`min:0.01`). */
  const MinAmount: Cents := 1

  const FeesAccountName: string := "System Fees Account"
  const FatorahAccountName: string := "System fatorah Account"

  /** The two system accounts the migration seeds, in id order, both at 0. */
  function SeededSystemAccounts(): (s: seq<SystemAccount>)
    ensures |s| == 2 && s[0].name == FeesAccountName && s[1].name == FatorahAccountName
    ensures s[0].balance == 0 && s[1].balance == 0
  {
    [SystemAccount(FeesAccountName, 0), SystemAccount(FatorahAccountName, 0)]
  }

  /** Transaction::isRefundable: completed, with a deadline, and `now` not past it. */
  predicate IsRefundable(tx: TxRow, now: int)
  {
    tx.status == TxCompleted && tx.refundableUntil.Some? && now <= tx.refundableUntil.value
  }

  /** The deadline is inclusive, and nothing but a completed transaction with a
      deadline is ever refundable. */
  lemma RefundableExactly(tx: TxRow, now: int)
    ensures tx.status == TxCompleted && tx.refundableUntil == Some(now) ==> IsRefundable(tx, now)
    ensures tx.status != TxCompleted || tx.refundableUntil.None? ==> !IsRefundable(tx, now)
    ensures IsRefundable(tx, now) ==> forall later :: later <= now ==> IsRefundable(tx, later)
  {
  }

  /** The record of a deposit or withdrawal: completed, no fee,
      total_amount equal to the amount. */
  function WalletRecord(user: nat, kind: TxType, amount: Cents): (tx: TxRow)
    ensures tx.userId == user && tx.kind == kind && tx.amount == amount
    ensures tx.fee == 0 && tx.totalAmount == tx.amount + tx.fee && tx.status == TxCompleted
    ensures tx.thirdPartyAppId.None? && tx.refundableUntil.None?
  {
    TxRow(user, None, kind, amount, 0, amount, TxCompleted, None, None)
  }

  /** `Model::where(...)->first()`: the lowest row id whose row satisfies `p`. */
  function FirstWhere<T>(rows: seq<T>, p: T -> bool): (r: Option<nat>)
    ensures r.Some? ==> r.value < |rows| && p(rows[r.value])
    ensures r.Some? ==> forall j :: 0 <= j < r.value ==> !p(rows[j])
    ensures r.None? ==> forall j :: 0 <= j < |rows| ==> !p(rows[j])
  {
    if rows == [] then None
    else if p(rows[0]) then Some(0)
    else match FirstWhere(rows[1..], p)
      case None => None
      case Some(k) => Some(k + 1)
  }

  /** `User::where('phone', phone)->first()`. */
  function UserByPhone(users: seq<UserRow>, phone: string): (r: Option<nat>)
    ensures r.Some? ==> r.value < |users| && users[r.value].phone == phone
    ensures r.Some? ==> forall j :: 0 <= j < r.value ==> users[j].phone != phone
    ensures r.None? ==> forall j :: 0 <= j < |users| ==> users[j].phone != phone
  {
    FirstWhere(users, (u: UserRow) => u.phone == phone)
  }

  /** `PaymentSystemAccount::where('name', name)->first()`. */
  function SystemAccountNamed(accounts: seq<SystemAccount>, name: string): (r: Option<nat>)
    ensures r.Some? ==> r.value < |accounts| && accounts[r.value].name == name
    ensures r.Some? ==> forall j :: 0 <= j < r.value ==> accounts[j].name != name
    ensures r.None? ==> forall j :: 0 <= j < |accounts| ==> accounts[j].name != name
  {
    FirstWhere(accounts, (a: SystemAccount) => a.name == name)
  }

  /** `$transaction->refund`: some refunds row points at the transaction. */
  predicate HasRefund(refunds: seq<RefundRow>, txId: nat)
  {
    exists i :: 0 <= i < |refunds| && refunds[i].transactionId == txId
  }

  /** `DB::table('users')->sum('balance')`. */
  function TotalUserBalance(users: seq<UserRow>): int
  {
    if users == [] then 0 else TotalUserBalance(users[..|users| - 1]) + users[|users| - 1].balance
  }

  /** `DB::table('payment_system_accounts')->sum('balance')`. */
  function TotalSystemBalance(accounts: seq<SystemAccount>): int
  {
    if accounts == [] then 0 else TotalSystemBalance(accounts[..|accounts| - 1]) + accounts[|accounts| - 1].balance
  }

  /** Every balance in the ledger: system accounts plus the users table. */
  function OverallBalance(d: Db): int
  {
    TotalSystemBalance(d.systemAccounts) + TotalUserBalance(d.users)
  }

  /** Setting one user's balance moves the users total by the difference. */
  lemma {:induction false} TotalUserBalanceUpdate(users: seq<UserRow>, i: nat, balance: Cents)
    requires i < |users|
    ensures TotalUserBalance(users[i := users[i].(balance := balance)])
         == TotalUserBalance(users) - users[i].balance + balance
  {
    var users' := users[i := users[i].(balance := balance)];
    var n := |users| - 1;
    assert users'[..n] == if i == n then users[..n] else users[..n][i := users[i].(balance := balance)];
    if i < n {
      TotalUserBalanceUpdate(users[..n], i, balance);
    }
  }

  /** Setting one system account's balance moves the system total by the difference. */
  lemma {:induction false} TotalSystemBalanceUpdate(accounts: seq<SystemAccount>, i: nat, balance: Cents)
    requires i < |accounts|
    ensures TotalSystemBalance(accounts[i := accounts[i].(balance := balance)])
         == TotalSystemBalance(accounts) - accounts[i].balance + balance
  {
    var accounts' := accounts[i := accounts[i].(balance := balance)];
    var n := |accounts| - 1;
    assert accounts'[..n] == if i == n then accounts[..n] else accounts[..n][i := accounts[i].(balance := balance)];
    if i < n {
      TotalSystemBalanceUpdate(accounts[..n], i, balance);
    }
  }

  /** The users total is not negative while no user's balance is. */
  lemma {:induction false} TotalUserBalanceNonNegative(users: seq<UserRow>)
    requires forall j :: 0 <= j < |users| ==> users[j].balance >= 0
    ensures TotalUserBalance(users) >= 0
  {
    if users != [] {
      TotalUserBalanceNonNegative(users[..|users| - 1]);
    }
  }

  /** The system total is not negative while no account's balance is. */
  lemma {:induction false} TotalSystemBalanceNonNegative(accounts: seq<SystemAccount>)
    requires forall j :: 0 <= j < |accounts| ==> accounts[j].balance >= 0
    ensures TotalSystemBalance(accounts) >= 0
  {
    if accounts != [] {
      TotalSystemBalanceNonNegative(accounts[..|accounts| - 1]);
    }
  }

  /** The users total depends on the balances alone. */
  lemma {:induction false} TotalUserBalanceOfBalances(users: seq<UserRow>, users': seq<UserRow>)
    requires |users| == |users'|
    requires forall j :: 0 <= j < |users| ==> users[j].balance == users'[j].balance
    ensures TotalUserBalance(users) == TotalUserBalance(users')
  {
    if users != [] {
      var n := |users| - 1;
      TotalUserBalanceOfBalances(users[..n], users'[..n]);
    }
  }

  /** The system total depends on the balances alone. */
  lemma {:induction false} TotalSystemBalanceOfBalances(accounts: seq<SystemAccount>, accounts': seq<SystemAccount>)
    requires |accounts| == |accounts'|
    requires forall j :: 0 <= j < |accounts| ==> accounts[j].balance == accounts'[j].balance
    ensures TotalSystemBalance(accounts) == TotalSystemBalance(accounts')
  {
    if accounts != [] {
      var n := |accounts| - 1;
      TotalSystemBalanceOfBalances(accounts[..n], accounts'[..n]);
    }
  }

  /** `d` with user `i`'s balance set. */
  function WithUserBalance(d: Db, i: nat, balance: Cents): Db
    requires i < |d.users|
  {
    d.(users := d.users[i := d.users[i].(balance := balance)])
  }

  /** `d` with system account `i`'s balance set. */
  function WithSystemBalance(d: Db, i: nat, balance: Cents): Db
    requires i < |d.systemAccounts|
  {
    d.(systemAccounts := d.systemAccounts[i := d.systemAccounts[i].(balance := balance)])
  }

  /** Setting a user's balance changes the overall balance by the difference. */
  lemma OverallUserUpdate(d: Db, i: nat, balance: Cents)
    requires i < |d.users|
    ensures OverallBalance(WithUserBalance(d, i, balance)) == OverallBalance(d) - d.users[i].balance + balance
  {
    TotalUserBalanceUpdate(d.users, i, balance);
  }

  /** Setting a system account's balance changes the overall balance by the difference. */
  lemma OverallSystemUpdate(d: Db, i: nat, balance: Cents)
    requires i < |d.systemAccounts|
    ensures OverallBalance(WithSystemBalance(d, i, balance)) == OverallBalance(d) - d.systemAccounts[i].balance + balance
  {
    TotalSystemBalanceUpdate(d.systemAccounts, i, balance);
  }

  /** Referential integrity of the refunds table and the refund lifecycle:
      every refund names an existing transaction, no transaction has two
      refunds, and a completed refund's transaction is marked refunded. */
  ghost predicate WellFormed(d: Db)
  {
    && (forall i :: 0 <= i < |d.refunds| ==> d.refunds[i].transactionId < |d.transactions|)
    && (forall i, j :: 0 <= i < j < |d.refunds| ==> d.refunds[i].transactionId != d.refunds[j].transactionId)
    && (forall i :: 0 <= i < |d.refunds| && d.refunds[i].status == RefundCompleted ==>
          d.transactions[d.refunds[i].transactionId].status == TxRefunded)
  }

  /** An operation that leaves the refunds table alone and keeps every
      existing transaction's status (appending transactions is allowed) keeps
      the refund-table invariant. */
  lemma WellFormedKept(d: Db, d': Db)
    requires WellFormed(d)
    requires d'.refunds == d.refunds && |d'.transactions| >= |d.transactions|
    requires forall t :: 0 <= t < |d.transactions| ==> d'.transactions[t].status == d.transactions[t].status
    ensures WellFormed(d')
  {
    forall i | 0 <= i < |d'.refunds| && d'.refunds[i].status == RefundCompleted
      ensures d'.transactions[d'.refunds[i].transactionId].status == TxRefunded
    {
      assert d'.transactions[d.refunds[i].transactionId].status == d.transactions[d.refunds[i].transactionId].status;
    }
  }

  /** The database the migrations create: empty tables and the two seeded system accounts. */
  function Migrated(): (d: Db)
    ensures WellFormed(d) && OverallBalance(d) == 0
  {
    var d := Db([], SeededSystemAccounts(), [], [], [], [], []);
    assert TotalSystemBalance(d.systemAccounts[..1]) == 0;
    d
  }
}
