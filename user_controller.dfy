/**
 * The wallet operations a signed-in user performs on their own account:
 * deposit, withdrawal, refund request and profile update. The caller is the
 * authenticated user `caller`, an existing users row.
 *
 * Each operation has a specification function giving the database it commits
 * (or the error it answers), and a method that performs the controller's writes
 * one by one on a `Store`. Deposit and withdrawal run without a database
 * transaction, so a failing second write leaves the first in place.
 */
module UserController {
  import opened Money
  import opened Models
  import opened Database

  /** depositFunds: the balance grows by the amount and a deposit is recorded. */
  function SelfDeposit(d: Db, caller: nat, amount: Cents): (r: Result<Db>)
    requires caller < |d.users|
    ensures r.Err? <==> amount < MinAmount
    ensures r.Err? ==> r.error == InvalidInput
  {
    if amount < MinAmount then Err(InvalidInput)
    else
      var d' := WithUserBalance(d, caller, d.users[caller].balance + amount);
      Ok(d'.(transactions := d.transactions + [WalletRecord(caller, Deposit, amount)]))
  }

  /** withdrawFunds: refused when the balance is below the amount; otherwise the
      balance drops by the amount and a withdrawal is recorded. */
  function SelfWithdrawal(d: Db, caller: nat, amount: Cents): (r: Result<Db>)
    requires caller < |d.users|
    ensures r.Ok? <==> amount >= MinAmount && d.users[caller].balance >= amount
    ensures r.Err? && amount >= MinAmount ==> r.error == InsufficientFunds
  {
    if amount < MinAmount then Err(InvalidInput)
    else if d.users[caller].balance < amount then Err(InsufficientFunds)
    else
      var d' := WithUserBalance(d, caller, d.users[caller].balance - amount);
      Ok(d'.(transactions := d.transactions + [WalletRecord(caller, Withdrawal, amount)]))
  }

  /** The pending refund the user's request creates: the transaction's amount
      and fee, for the caller, against the transaction's app. */
  function UserRefundRow(txId: nat, caller: nat, tx: TxRow): RefundRow
  {
    RefundRow(txId, caller, tx.thirdPartyAppId, tx.amount, tx.fee, RefundPending)
  }

  /** requestRefund: only the caller's own transactions are found; the
      transaction must be refundable at `now` and have no refund yet. */
  function UserRefundRequested(d: Db, caller: nat, txId: nat, now: int): (r: Result<Db>)
    ensures r.Ok? <==>
      txId < |d.transactions| && d.transactions[txId].userId == caller
      && IsRefundable(d.transactions[txId], now) && !HasRefund(d.refunds, txId)
  {
    if txId >= |d.transactions| then Err(InvalidInput)
    else if d.transactions[txId].userId != caller then Err(NotFound)
    else if !IsRefundable(d.transactions[txId], now) then Err(NotRefundable)
    else if HasRefund(d.refunds, txId) then Err(AlreadyRequested)
    else Ok(d.(refunds := d.refunds + [UserRefundRow(txId, caller, d.transactions[txId])]))
  }

  /** What validation accepts for updateProfile: a given name is non-empty and
      at most 255 characters; a given phone is non-empty and no other user's. */
  predicate ProfileInputValid(users: seq<UserRow>, caller: nat, name: Option<string>, phone: Option<string>)
  {
    && (name.Some? ==> 0 < |name.value| <= 255)
    && (phone.Some? ==> |phone.value| > 0 && forall j :: 0 <= j < |users| && j != caller ==> users[j].phone != phone.value)
  }

  /** The caller's row after `fill($request->only(['name', 'phone']))`. */
  function FilledProfile(row: UserRow, name: Option<string>, phone: Option<string>): (row': UserRow)
    ensures row'.balance == row.balance && row'.role == row.role
  {
    row.(name := if name.Some? then name.value else row.name,
         phone := if phone.Some? then phone.value else row.phone)
  }

  /** updateProfile: only the caller's name and phone can change. */
  function ProfileUpdated(d: Db, caller: nat, name: Option<string>, phone: Option<string>): (r: Result<Db>)
    requires caller < |d.users|
    ensures r.Ok? <==> ProfileInputValid(d.users, caller, name, phone)
  {
    if !ProfileInputValid(d.users, caller, name, phone) then Err(InvalidInput)
    else Ok(d.(users := d.users[caller := FilledProfile(d.users[caller], name, phone)]))
  }

  // ---------------------------------------------------------------------------
  // The controller actions, write by write.
  // ---------------------------------------------------------------------------

  /** depositFunds. Writes: 0 the balance, 1 the transaction record. With no
      database transaction around them, a failing record leaves the credit. */
  method DepositFunds(db: Store, caller: nat, amount: Cents, failAt: Option<nat>) returns (r: Result<nat>)
    requires caller < |db.users|
    modifies db
    ensures var spec := SelfDeposit(old(db.State()), caller, amount);
      if spec.Err? then r == Err(spec.error) && db.State() == old(db.State())
      else if Throws(failAt, 0) then r == Err(OperationFailed) && db.State() == old(db.State())
      else if Throws(failAt, 1) then
        r == Err(OperationFailed)
        && db.State() == WithUserBalance(old(db.State()), caller, old(db.users[caller].balance) + amount)
      else r == Ok(|old(db.transactions)|) && db.State() == spec.value
  {
    if amount < MinAmount {
      return Err(InvalidInput);
    }
    if Throws(failAt, 0) {
      return Err(OperationFailed);
    }
    db.SaveUserBalance(caller, db.users[caller].balance + amount);
    if Throws(failAt, 1) {
      return Err(OperationFailed);
    }
    var id := db.CreateTransaction(WalletRecord(caller, Deposit, amount));
    r := Ok(id);
  }

  /** withdrawFunds. Writes: 0 the balance, 1 the transaction record, with no
      database transaction around them. */
  method WithdrawFunds(db: Store, caller: nat, amount: Cents, failAt: Option<nat>) returns (r: Result<nat>)
    requires caller < |db.users|
    modifies db
    ensures var spec := SelfWithdrawal(old(db.State()), caller, amount);
      if spec.Err? then r == Err(spec.error) && db.State() == old(db.State())
      else if Throws(failAt, 0) then r == Err(OperationFailed) && db.State() == old(db.State())
      else if Throws(failAt, 1) then
        r == Err(OperationFailed)
        && db.State() == WithUserBalance(old(db.State()), caller, old(db.users[caller].balance) - amount)
      else r == Ok(|old(db.transactions)|) && db.State() == spec.value
  {
    if amount < MinAmount {
      return Err(InvalidInput);
    }
    if db.users[caller].balance < amount {
      return Err(InsufficientFunds);
    }
    if Throws(failAt, 0) {
      return Err(OperationFailed);
    }
    db.SaveUserBalance(caller, db.users[caller].balance - amount);
    if Throws(failAt, 1) {
      return Err(OperationFailed);
    }
    var id := db.CreateTransaction(WalletRecord(caller, Withdrawal, amount));
    r := Ok(id);
  }

  /** requestRefund. Write: 0 the refund row; on success the new refund's id. */
  method RequestRefund(db: Store, caller: nat, txId: nat, now: int, failAt: Option<nat>) returns (r: Result<nat>)
    modifies db
    ensures var spec := UserRefundRequested(old(db.State()), caller, txId, now);
      if spec.Err? then r == Err(spec.error) && db.State() == old(db.State())
      else if Throws(failAt, 0) then r == Err(OperationFailed) && db.State() == old(db.State())
      else r == Ok(|old(db.refunds)|) && db.State() == spec.value
  {
    if txId >= |db.transactions| {
      return Err(InvalidInput);
    }
    var tx := db.transactions[txId];
    if tx.userId != caller {
      return Err(NotFound);
    }
    if !IsRefundable(tx, now) {
      return Err(NotRefundable);
    }
    var i := 0;
    while i < |db.refunds|
      invariant 0 <= i <= |db.refunds|
      invariant forall k :: 0 <= k < i ==> db.refunds[k].transactionId != txId
    {
      if db.refunds[i].transactionId == txId {
        return Err(AlreadyRequested);
      }
      i := i + 1;
    }
    if Throws(failAt, 0) {
      return Err(OperationFailed);
    }
    var id := db.CreateRefund(UserRefundRow(txId, caller, tx));
    r := Ok(id);
  }

  /** updateProfile. Write: 0 the caller's row. */
  method UpdateProfile(db: Store, caller: nat, name: Option<string>, phone: Option<string>, failAt: Option<nat>)
    returns (r: Result<nat>)
    requires caller < |db.users|
    modifies db
    ensures var spec := ProfileUpdated(old(db.State()), caller, name, phone);
      if spec.Err? then r == Err(spec.error) && db.State() == old(db.State())
      else if Throws(failAt, 0) then r == Err(OperationFailed) && db.State() == old(db.State())
      else r == Ok(caller) && db.State() == spec.value
  {
    if name.Some? && !(0 < |name.value| <= 255) {
      return Err(InvalidInput);
    }
    if phone.Some? {
      if |phone.value| == 0 {
        return Err(InvalidInput);
      }
      var j := 0;
      while j < |db.users|
        invariant 0 <= j <= |db.users|
        invariant forall k :: 0 <= k < j && k != caller ==> db.users[k].phone != phone.value
      {
        if j != caller && db.users[j].phone == phone.value {
          return Err(InvalidInput);
        }
        j := j + 1;
      }
    }
    if Throws(failAt, 0) {
      return Err(OperationFailed);
    }
    db.SaveUser(caller, FilledProfile(db.users[caller], name, phone));
    r := Ok(caller);
  }

  // ---------------------------------------------------------------------------
  // Properties.
  // ---------------------------------------------------------------------------

  /** A deposit credits exactly the amount to the caller, no one else, records a
      fee-free completed deposit, raises the ledger total by the amount and
      keeps the refunds table well formed. */
  lemma SelfDepositEffect(d: Db, caller: nat, amount: Cents)
    requires caller < |d.users|
    requires SelfDeposit(d, caller, amount).Ok?
    ensures var d' := SelfDeposit(d, caller, amount).value;
      && |d'.users| == |d.users|
      && d'.users[caller] == d.users[caller].(balance := d.users[caller].balance + amount)
      && (forall j :: 0 <= j < |d.users| && j != caller ==> d'.users[j] == d.users[j])
      && d'.(users := d.users, transactions := d.transactions) == d
      && d'.transactions == d.transactions + [WalletRecord(caller, Deposit, amount)]
      && OverallBalance(d') == OverallBalance(d) + amount
      && (WellFormed(d) ==> WellFormed(d'))
  {
    var d' := SelfDeposit(d, caller, amount).value;
    OverallUserUpdate(d, caller, d.users[caller].balance + amount);
    if WellFormed(d) {
      WellFormedKept(d, d');
    }
  }

  /** A withdrawal debits exactly the amount, so a non-negative balance stays
      non-negative, touches no other row or table, lowers the ledger total by
      the amount and keeps the refunds table well formed. */
  lemma SelfWithdrawalEffect(d: Db, caller: nat, amount: Cents)
    requires caller < |d.users|
    requires SelfWithdrawal(d, caller, amount).Ok?
    ensures var d' := SelfWithdrawal(d, caller, amount).value;
      && |d'.users| == |d.users|
      && d'.users[caller] == d.users[caller].(balance := d.users[caller].balance - amount)
      && d'.users[caller].balance >= 0
      && (forall j :: 0 <= j < |d.users| && j != caller ==> d'.users[j] == d.users[j])
      && d'.transactions == d.transactions + [WalletRecord(caller, Withdrawal, amount)]
      && d'.(users := d.users, transactions := d.transactions) == d
      && OverallBalance(d') == OverallBalance(d) - amount
      && (WellFormed(d) ==> WellFormed(d'))
  {
    var d' := SelfWithdrawal(d, caller, amount).value;
    OverallUserUpdate(d, caller, d.users[caller].balance - amount);
    if WellFormed(d) {
      WellFormedKept(d, d');
    }
  }

  /** A refund request appends one pending refund that mirrors the
      transaction's amount and fee, changes nothing else, and keeps the refunds table well formed (in particular,
      still at most one refund per transaction). */
  lemma UserRefundRequestedEffect(d: Db, caller: nat, txId: nat, now: int)
    requires WellFormed(d)
    requires UserRefundRequested(d, caller, txId, now).Ok?
    ensures var d' := UserRefundRequested(d, caller, txId, now).value;
      && WellFormed(d')
      && d'.(refunds := d.refunds) == d
      && |d'.refunds| == |d.refunds| + 1 && d'.refunds[..|d.refunds|] == d.refunds
      && var row := d'.refunds[|d.refunds|];
         row.status == RefundPending && row.userId == caller && row.transactionId == txId
         && row.amount == d.transactions[txId].amount && row.feeRefunded == d.transactions[txId].fee
         && row.thirdPartyAppId == d.transactions[txId].thirdPartyAppId
  {
    var d' := UserRefundRequested(d, caller, txId, now).value;
    forall i, j | 0 <= i < j < |d'.refunds|
      ensures d'.refunds[i].transactionId != d'.refunds[j].transactionId
    {
      if j == |d.refunds| {
        assert d.refunds[i].transactionId != txId;
      }
    }
  }

  /** A profile update touches only the caller's name and phone: every
      balance and role is as before, as are the other users' rows and every
      other table, so the refunds table stays well formed. */
  lemma ProfileUpdatedEffect(d: Db, caller: nat, name: Option<string>, phone: Option<string>)
    requires caller < |d.users|
    requires ProfileUpdated(d, caller, name, phone).Ok?
    ensures var d' := ProfileUpdated(d, caller, name, phone).value;
      && |d'.users| == |d.users|
      && (forall j :: 0 <= j < |d.users| ==> d'.users[j].balance == d.users[j].balance && d'.users[j].role == d.users[j].role)
      && (forall j :: 0 <= j < |d.users| && j != caller ==> d'.users[j] == d.users[j])
      && d'.users[caller].name == (if name.Some? then name.value else d.users[caller].name)
      && d'.users[caller].phone == (if phone.Some? then phone.value else d.users[caller].phone)
      && d'.(users := d.users) == d
      && OverallBalance(d') == OverallBalance(d)
      && (WellFormed(d) ==> WellFormed(d'))
  {
    var d' := ProfileUpdated(d, caller, name, phone).value;
    TotalUserBalanceOfBalances(d.users, d'.users);
  }
}
