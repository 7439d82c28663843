/**
 * The database the controllers change in place. Each table is a field that
 * the Eloquent-style writes below reassign one row at a time; `State()` is the
 * whole database as a value, which the controllers snapshot at
 * `DB::beginTransaction()` and restore at `DB::rollBack()`.
 */
module Database {
  import opened Money
  import opened Models

  /** The write numbered `step` of an operation throws when `failAt` names it. */
  predicate Throws(failAt: Option<nat>, step: nat)
  {
    failAt == Some(step)
  }

  /** What the fees table accepts: `payment_system_account_id` is NOT NULL and,
      like `transaction_id`, a foreign key to an existing row. */
  predicate FeeRowInsertable(d: Db, row: FeeRow)
  {
    && row.systemAccountId.Some?
    && row.systemAccountId.value < |d.systemAccounts|
    && row.transactionId < |d.transactions|
  }

  class Store {
    var users: seq<UserRow>
    var systemAccounts: seq<SystemAccount>
    var transactions: seq<TxRow>
    var fees: seq<FeeRow>
    var refunds: seq<RefundRow>
    var invoices: seq<InvoiceRow>
    var bills: seq<BillRow>

    function State(): Db
      reads this
    {
      Db(users, systemAccounts, transactions, fees, refunds, invoices, bills)
    }

    /** `DB::rollBack()`: every table back to the snapshot. */
    method Rollback(snapshot: Db)
      modifies this
      ensures State() == snapshot
    {
      users, systemAccounts, transactions := snapshot.users, snapshot.systemAccounts, snapshot.transactions;
      fees, refunds, invoices, bills := snapshot.fees, snapshot.refunds, snapshot.invoices, snapshot.bills;
    }

    /** `$user->balance = ...; $user->save()`. */
    method SaveUserBalance(id: nat, balance: Cents)
      requires id < |users|
      modifies this
      ensures State() == old(State()).(users := old(users)[id := old(users)[id].(balance := balance)])
    {
      users := users[id := users[id].(balance := balance)];
    }

    /** `$user->fill([...]); $user->save()` for the whole row. */
    method SaveUser(id: nat, row: UserRow)
      requires id < |users|
      modifies this
      ensures State() == old(State()).(users := old(users)[id := row])
    {
      users := users[id := row];
    }

    /** `$systemAccount->balance = ...; $systemAccount->save()`. */
    method SaveSystemBalance(id: nat, balance: Cents)
      requires id < |systemAccounts|
      modifies this
      ensures State() == old(State()).(systemAccounts := old(systemAccounts)[id := old(systemAccounts)[id].(balance := balance)])
    {
      systemAccounts := systemAccounts[id := systemAccounts[id].(balance := balance)];
    }

    /** `Transaction::create([...])`; the new row's id is returned. */
    method CreateTransaction(row: TxRow) returns (id: nat)
      modifies this
      ensures id == |old(transactions)|
      ensures State() == old(State()).(transactions := old(transactions) + [row])
    {
      id := |transactions|;
      transactions := transactions + [row];
    }

    /** `$transaction->status = ...; $transaction->save()`. */
    method SaveTransactionStatus(id: nat, status: TxStatus)
      requires id < |transactions|
      modifies this
      ensures State() == old(State()).(transactions := old(transactions)[id := old(transactions)[id].(status := status)])
    {
      transactions := transactions[id := transactions[id].(status := status)];
    }

    /** `Fee::create([...])`: refused, changing nothing, when the row breaks the
        table's NOT NULL or foreign-key constraints. */
    method InsertFee(row: FeeRow) returns (ok: bool)
      modifies this
      ensures ok == FeeRowInsertable(old(State()), row)
      ensures State() == if ok then old(State()).(fees := old(fees) + [row]) else old(State())
    {
      ok := FeeRowInsertable(State(), row);
      if ok {
        fees := fees + [row];
      }
    }

    /** `Refund::create([...])`. */
    method CreateRefund(row: RefundRow) returns (id: nat)
      modifies this
      ensures id == |old(refunds)|
      ensures State() == old(State()).(refunds := old(refunds) + [row])
    {
      id := |refunds|;
      refunds := refunds + [row];
    }

    /** `$refund->status = ...; $refund->save()`. */
    method SaveRefundStatus(id: nat, status: RefundStatus)
      requires id < |refunds|
      modifies this
      ensures State() == old(State()).(refunds := old(refunds)[id := old(refunds)[id].(status := status)])
    {
      refunds := refunds[id := refunds[id].(status := status)];
    }

    /** `Invoice::create([...])`. */
    method CreateInvoice(row: InvoiceRow) returns (id: nat)
      modifies this
      ensures id == |old(invoices)|
      ensures State() == old(State()).(invoices := old(invoices) + [row])
    {
      id := |invoices|;
      invoices := invoices + [row];
    }

    /** `$bill->update([...])` or `$bill->save()` for the whole row. */
    method SaveBill(id: nat, row: BillRow)
      requires id < |bills|
      modifies this
      ensures State() == old(State()).(bills := old(bills)[id := row])
    {
      bills := bills[id := row];
    }
  }
}
