# Wallet ledger core — a Dafny model

This project models the money-moving core of a Laravel wallet and billing
service. Users, admins and third-party apps hold balances in the `users`
table. Two system accounts ("System Fees Account" and "System fatorah
Account") collect fees. Every movement leaves transaction, fee, refund and
invoice rows behind.

The modelled operations are:

- a user's own deposit, withdrawal, refund request and profile update;
- a third-party app charging a user by phone number with a percentage fee, and
  the app's refund request;
- the admin's bill settlement through an invoice (a 2% fee split 20%/80%
  between the two system accounts);
- the admin's refund confirmation, balance top-up, invoice creation and bill
  edit;
- the admin's balance summary;
- `Transaction::isRefundable`.

Money is whole cents (`Money.Cents`), because every money column is
`decimal(15,2)`. The settlement's unrounded 2% fee and its 20%/80% split are
kept exact, in thousandths of a cent, until a column stores them
(`Money.RoundToCents`).

Each table is a sequence of rows, and a row's id is its index.

The model has two layers:

- **Specification functions** give, for each operation, the database it
  commits or the error it answers. Examples are `UserController.SelfDeposit`,
  `ThirdPartyController.ThirdPartyPayment` and `AdminController.BillSettled`.
- **Methods** on the mutable `Database.Store` perform the controllers' writes
  one at a time, in the order the Laravel controllers make them. A `failAt`
  parameter names the write that throws. Where a controller wraps its writes in `DB::beginTransaction()`, a failure
  restores the snapshot. Where it does not (self deposit and withdrawal), the
  earlier write stays. Each method's postcondition ties the final store to the
  specification function.

Lemmas then state what the controllers promise about each specification
function.

Files:

- `money.dfy`: cents, column rounding and the percentage fee.
- `models.dfy`: rows, enums, lookups, balance totals and the refund-table
  invariant.
- `database.dfy`: the mutable store and its single-row writes.
- `user_controller.dfy`, `third_party_controller.dfy`, `admin_controller.dfy`:
  one module per controller.
- `ledger_properties.dfy`: properties that span several operations.

Two behaviours of the code are worth knowing before reading the model:

- **Bill ownership.** `createInvoiceForBill` does not check that the bill
  belongs to the user it debits, and neither does `AdminController.BillSettled`.
- **Fee split.** The settlement fee is split with fixed percentages, 20% and
  80%, and `integerValue(amount - fee)` is added to the 80% share. The model
  keeps this arithmetic and treats `integerValue` as a parameter.

## Model

| member | source | states |
|---|---|---|
| Money.RoundToCents | database/migrations/2024_09_27_220522_create_payment_system_accounts_table.php:18 | a decimal(15,2) column keeps the cent within half a cent of the exact amount |
| Money.RoundToCentsShift | app/Http/Controllers/Admin/AdminController.php:250-256 | storing `balance + share` in a cents column gives the balance plus the rounded share |
| Money.PercentageFee | app/Http/Controllers/User/ThirdPartyController.php:50 | the fee is the cent nearest to amount × percentage / 100, never negative |
| Money.PercentageFeeBounds | app/Http/Controllers/User/ThirdPartyController.php:49-50 | a percentage of at most 100 never charges more than the amount; the default percentage 0 charges nothing |
| Models.SeededSystemAccounts | database/migrations/2024_09_27_220522_create_payment_system_accounts_table.php:23-34 | the migration seeds exactly two system accounts, "System Fees Account" then "System fatorah Account", both at 0 |
| Models.WellFormed | database/migrations/2024_09_27_215424_create_refunds_table.php:16 | the refund invariant: every refund names an existing transaction, no transaction has two refunds, and a completed refund's transaction is marked refunded |
| Models.OverallBalance | app/Http/Controllers/Admin/AdminController.php:553-555 | the overall balance getSummary reports: the system accounts' sum plus the users' sum |
| Models.WellFormedKept | database/migrations/2024_09_27_215424_create_refunds_table.php:16 | a change that leaves the refunds alone and keeps every existing transaction's status keeps the refund invariant: each refund names an existing transaction, at most one per transaction, and a completed refund's transaction is refunded |
| Models.Migrated | database/migrations/2024_09_27_220522_create_payment_system_accounts_table.php:23-34 | the freshly migrated database satisfies the refund invariant and holds a total balance of 0 |
| Models.IsRefundable | app/Models/Transaction.php:77-80 | a transaction is refundable when it is completed, has a refund deadline and `now` is not past that deadline |
| Models.RefundableExactly | app/Models/Transaction.php:77-80 | isRefundable holds at the deadline itself and at every earlier instant; it never holds for a transaction that is not completed or has no deadline |
| Models.WalletRecord | app/Http/Controllers/User/UserController.php:215-223 | a deposit or withdrawal record belongs to the given user, has the given type and amount, is completed, has fee 0 and total_amount equal to the amount, and names no app and no deadline |
| Models.FirstWhere | app/Http/Controllers/User/ThirdPartyController.php:46 | `where(...)->first()` returns the lowest id whose row matches, or nothing when no row matches |
| Models.UserByPhone | app/Http/Controllers/User/ThirdPartyController.php:46 | the user found by phone has that phone and is the first such row; nothing is found exactly when no user has that phone |
| Models.SystemAccountNamed | app/Http/Controllers/Admin/AdminController.php:236-237 | a system account found by name exists, has that name and is the first such row; nothing is found exactly when no account has that name |
| Models.HasRefund | app/Models/Transaction.php:61-64 | `$transaction->refund` is present exactly when some refunds row names the transaction |
| Models.TotalUserBalance | app/Http/Controllers/Admin/AdminController.php:554 | the sum of the balance column over every users row |
| Models.TotalSystemBalance | app/Http/Controllers/Admin/AdminController.php:553 | the sum of the balance column over every system account |
| Models.TotalUserBalanceNonNegative | app/Http/Controllers/Admin/AdminController.php:554 | the users' sum is not negative while no user's balance is |
| Models.TotalSystemBalanceNonNegative | app/Http/Controllers/Admin/AdminController.php:553 | the system accounts' sum is not negative while no account's balance is |
| Models.TotalUserBalanceUpdate | app/Http/Controllers/Admin/AdminController.php:554 | changing one user's balance changes the users' sum by the difference |
| Models.TotalSystemBalanceUpdate | app/Http/Controllers/Admin/AdminController.php:553 | changing one system account's balance changes the accounts' sum by the difference |
| Models.OverallUserUpdate | app/Http/Controllers/Admin/AdminController.php:553-555 | changing one user's balance changes the overall balance by the difference |
| Models.OverallSystemUpdate | app/Http/Controllers/Admin/AdminController.php:553-555 | changing one system account's balance changes the overall balance by the difference |
| Models.TotalUserBalanceOfBalances | app/Http/Controllers/Admin/AdminController.php:554 | the users' sum depends on the balances alone |
| Models.TotalSystemBalanceOfBalances | app/Http/Controllers/Admin/AdminController.php:553 | the system accounts' sum depends on the balances alone |
| Database.FeeRowInsertable | database/migrations/2024_09_27_220528_create_fees_table.php:16-18 | the fees table accepts a row exactly when it names a system account, and both that account and the transaction exist |
| Database.Store.InsertFee | database/migrations/2024_09_27_220528_create_fees_table.php:16-18 | a fee row is stored if and only if it names an existing transaction and an existing system account; a refused row changes nothing |
| Database.Store.SaveUserBalance | app/Http/Controllers/User/UserController.php:211-212 | saving a user's balance changes that one field of that one row, and nothing else |
| Database.Store.SaveUser | app/Http/Controllers/User/UserController.php:185-186 | saving a filled user row replaces that row, and nothing else |
| Database.Store.SaveSystemBalance | app/Http/Controllers/User/ThirdPartyController.php:70-72 | saving a system account's balance changes that one field of that one row, and nothing else |
| Database.Store.CreateTransaction | app/Http/Controllers/User/UserController.php:215-223 | `Transaction::create` appends the row, returns its new id and changes nothing else |
| Database.Store.SaveTransactionStatus | app/Http/Controllers/Admin/AdminController.php:318-319 | saving a transaction's status changes that one field of that one row, and nothing else |
| Database.Store.CreateRefund | app/Http/Controllers/User/UserController.php:151-159 | `Refund::create` appends the row, returns its new id and changes nothing else |
| Database.Store.SaveRefundStatus | app/Http/Controllers/Admin/AdminController.php:314-315 | saving a refund's status changes that one field of that one row, and nothing else |
| Database.Store.CreateInvoice | app/Http/Controllers/Admin/AdminController.php:177-183 | `Invoice::create` appends the row, returns its new id and changes nothing else |
| Database.Store.SaveBill | app/Http/Controllers/Admin/AdminController.php:138-145 | saving a bill replaces that one row, and nothing else |
| Database.Store.Rollback | app/Http/Controllers/Admin/AdminController.php:271-275 | `DB::rollBack()` restores every table to the snapshot taken at `DB::beginTransaction()` |
| UserController.SelfDeposit | app/Http/Controllers/User/UserController.php:196-226 | a deposit fails exactly when the amount is below 0.01, and then with a validation error |
| UserController.SelfWithdrawal | app/Http/Controllers/User/UserController.php:233-268 | a withdrawal succeeds exactly when the amount is at least 0.01 and at most the balance; a valid amount above the balance answers insufficient funds |
| UserController.UserRefundRow | app/Http/Controllers/User/UserController.php:151-159 | the user's refund request: pending, for the caller, with the transaction's app, amount and fee |
| UserController.UserRefundRequested | app/Http/Controllers/User/UserController.php:120-165 | a refund request succeeds exactly when the transaction exists, is the caller's, is refundable now and has no refund yet |
| UserController.FilledProfile | app/Http/Controllers/User/UserController.php:184-185 | filling the profile keeps the balance and the role |
| UserController.ProfileInputValid | app/Http/Controllers/User/UserController.php:174-177 | validation accepts a name of 1 to 255 characters when one is given, and a non-empty phone no other user holds when one is given |
| UserController.ProfileUpdated | app/Http/Controllers/User/UserController.php:172-189 | a profile update succeeds exactly when a given name is 1 to 255 characters and a given phone is non-empty and no other user's |
| UserController.DepositFunds | app/Http/Controllers/User/UserController.php:196-226 | commits the specified deposit; with no DB transaction, a failing record write leaves the credited balance in place |
| UserController.WithdrawFunds | app/Http/Controllers/User/UserController.php:233-268 | commits the specified withdrawal; a failing record write leaves the debited balance in place |
| UserController.RequestRefund | app/Http/Controllers/User/UserController.php:131-159 | scans the refunds for one on the transaction, then commits the specified refund row or answers the specified error, changing nothing |
| UserController.UpdateProfile | app/Http/Controllers/User/UserController.php:174-186 | checks phone uniqueness over every other user, then commits the specified profile or answers a validation error |
| UserController.SelfDepositEffect | app/Http/Controllers/User/UserController.php:210-223 | a deposit credits exactly the amount to the caller, changing no other field of the caller's row and no other user, records a fee-free completed deposit, changes no other table, raises the total by the amount and keeps the refund invariant |
| UserController.SelfWithdrawalEffect | app/Http/Controllers/User/UserController.php:246-265 | a withdrawal debits exactly the amount from the caller alone, changing no other field of the caller's row, leaves the balance non-negative, records a completed withdrawal, changes no other table, lowers the total by the amount and keeps the refund invariant |
| UserController.UserRefundRequestedEffect | app/Http/Controllers/User/UserController.php:151-159 | the new refund is appended after the unchanged earlier ones, is pending and carries the transaction's amount, fee and third_party_app_id and the caller; no other table changes; at most one refund per transaction still holds |
| UserController.ProfileUpdatedEffect | app/Http/Controllers/User/UserController.php:184-186 | a profile update changes only the caller's name and phone; every balance and role, every other users row and every other table are unchanged, so are the total and the refund invariant |
| ThirdPartyController.PaymentInputValid | app/Http/Controllers/User/ThirdPartyController.php:32-37 | validation accepts a phone some user holds, an amount of at least 0.01 and a refund deadline after now |
| ThirdPartyController.PaymentRecord | app/Http/Controllers/User/ThirdPartyController.php:75-85 | the payment record is the payer's completed payment of the given amount and fee, whose total_amount is amount + fee, carrying the app and the caller's refund deadline |
| ThirdPartyController.ThirdPartyPayment | app/Http/Controllers/User/ThirdPartyController.php:30-105 | the corrected payment, whose Fee row names system account 0 (as written, the controller never commits: see `InitiateTransaction`): invalid input answers a validation error; valid input answers insufficient funds exactly when the balance is below amount + fee; the payment commits exactly when the input is valid, the payer's balance covers amount + fee and a system account exists |
| ThirdPartyController.Transfer | app/Http/Controllers/User/ThirdPartyController.php:61-91 | the committed writes: the payer debited amount + fee, the app saved from its stale copy plus the amount, the first system account credited the fee, then the payment record and a Fee row naming account 0 |
| ThirdPartyController.InitiateTransaction | app/Http/Controllers/User/ThirdPartyController.php:58-104 | as written, the Fee row without a system account is refused, so every transfer rolls back: the caller gets the specified error or a failure, and the database is unchanged |
| ThirdPartyController.AppRefundRow | app/Http/Controllers/User/ThirdPartyController.php:157-165 | the app's refund request: pending, for the transaction's user, against the app, with the transaction's amount and fee |
| ThirdPartyController.AppRefundRequested | app/Http/Controllers/User/ThirdPartyController.php:126-171 | an app's refund request succeeds exactly when the transaction exists, names the app, is refundable now and has no refund yet |
| ThirdPartyController.RequestRefund | app/Http/Controllers/User/ThirdPartyController.php:137-165 | scans the refunds for one on the transaction, then commits the specified refund row or answers the specified error, changing nothing |
| ThirdPartyController.TransferConserves | app/Http/Controllers/User/ThirdPartyController.php:61-72 | between a payer and a distinct app, the payer loses amount + fee, the app gains the amount, the first system account gains the fee, no other field of those rows changes, and the total is conserved |
| ThirdPartyController.PaymentConserves | app/Http/Controllers/User/ThirdPartyController.php:61-91 | a payer other than the app pays amount + fee, the app gains the amount, the first system account gains the fee, no other field of those rows changes, nobody else changes, refunds, invoices and bills are untouched, and the total is conserved |
| ThirdPartyController.SelfPaymentMints | app/Http/Controllers/User/ThirdPartyController.php:43-67 | when an app charges its own phone, the stale authenticated row overwrites the debit: the app ends at old + amount and the total grows by amount + fee |
| ThirdPartyController.AppRefundRequestedEffect | app/Http/Controllers/User/ThirdPartyController.php:157-165 | the new refund is appended after the unchanged earlier ones, is pending, for the transaction's user, against the app, with the transaction's amount and fee; no other table changes; at most one refund per transaction still holds |
| AdminController.SettlementFee | app/Http/Controllers/Admin/AdminController.php:219 | the settlement fee is exactly 2% of the invoice amount |
| AdminController.FeesAccountShare | app/Http/Controllers/Admin/AdminController.php:222 | the fees account's share is exactly 20% of the fee |
| AdminController.FatorahAccountShare | app/Http/Controllers/Admin/AdminController.php:223 | the fatorah share is exactly 80% of the fee plus `integerValue(amount - fee)` |
| AdminController.SettlementRecord | app/Http/Controllers/Admin/AdminController.php:226-235 | the settlement record is the user's completed payment of the invoice less the 2% fee, with that fee, each rounded to the cent, and total_amount equal to the invoice amount, referencing the invoice |
| AdminController.SettlementAccepted | app/Http/Controllers/Admin/AdminController.php:188-203 | the user and the bill exist, the amount is at least 0.01 and the user's balance covers it |
| AdminController.SettledBill | app/Http/Controllers/Admin/AdminController.php:262-265 | the bill's amount (null counting as 0) grows by the invoice, its due date becomes now, and nothing else in the row changes |
| AdminController.BillSettled | app/Http/Controllers/Admin/AdminController.php:188-276 | with the user and bill present and a valid amount, settlement answers insufficient funds exactly when the balance is below the amount; a settlement commits exactly when the user and bill exist, the amount is valid and covered, and both named system accounts exist |
| AdminController.SettlementRows | app/Http/Controllers/Admin/AdminController.php:209-249 | the rows a settlement inserts: the paid invoice, the payment record referencing it, and one Fee row per system account with its rounded share |
| AdminController.SettlementUpdates | app/Http/Controllers/Admin/AdminController.php:250-265 | the saves a settlement makes: each system account's column stores its balance plus its exact share, the user is debited the invoice, and the bill is settled |
| AdminController.Settle | app/Http/Controllers/Admin/AdminController.php:209-265 | a committed settlement: the inserts, then the saves |
| AdminController.CreateInvoiceForBill | app/Http/Controllers/Admin/AdminController.php:188-276 | answers the specified error with no write; a failure at any of the eight writes rolls all back; otherwise commits the specified settlement and returns the new invoice id |
| AdminController.WriteSettlementRows | app/Http/Controllers/Admin/AdminController.php:209-249 | writes the invoice, the transaction and the two Fee rows, and succeeds exactly when both system accounts exist and no write throws |
| AdminController.WriteSettlementUpdates | app/Http/Controllers/Admin/AdminController.php:250-265 | credits both system accounts, debits the user and settles the bill, and succeeds exactly when none of those writes throws |
| AdminController.BillSettledEffect | app/Http/Controllers/Admin/AdminController.php:239-265 | a settlement debits the user exactly the invoice and credits each system account exactly its own Fee row's amount: the rounded 20% share for the fees account, the rounded 80% share plus `integerValue` for the fatorah account; no other field of those rows changes; nobody else changes; the invoice and payment are recorded; the existing Fee rows are kept; the bill is settled and the other bills are unchanged; the total moves by the Fee rows less the invoice |
| AdminController.SettleBalances | app/Http/Controllers/Admin/AdminController.php:250-260 | through two distinct accounts, each account's stored balance is its old balance plus its Fee row's amount, and the user loses the invoice |
| AdminController.BillSettledWellFormed | app/Http/Controllers/Admin/AdminController.php:209-265 | a settlement keeps the refund invariant |
| AdminController.SettlementRecordSplit | app/Http/Controllers/Admin/AdminController.php:226-235 | the stored amount and fee add up to total_amount, except when the invoice's cents are 25 mod 50; there both round up and exceed it by one cent |
| AdminController.SettlementOfTwoHundred | app/Http/Controllers/Admin/AdminController.php:219-235 | a 200.00 invoice stores a 196.00 payment with a 4.00 fee; the fees account gets 0.80 and the fatorah account 3.20 plus `integerValue(196.00)` |
| AdminController.RefundConfirmed | app/Http/Controllers/Admin/AdminController.php:295-349 | a missing refund answers not found; an existing one answers already processed exactly when it is not pending; a refund commits exactly when it is pending, its transaction and user exist, and a system account exists whenever fee_refunded is positive |
| AdminController.AppAttached | app/Http/Controllers/Admin/AdminController.php:327 | the refund's app is loaded exactly when the refund names an app that exists |
| AdminController.ConfirmWrites | app/Http/Controllers/Admin/AdminController.php:313-338 | confirmation always writes the refund, the transaction and the user; it writes the app exactly when one is attached, and the system account exactly when fee_refunded is positive |
| AdminController.ConfirmRefund | app/Http/Controllers/Admin/AdminController.php:295-349 | answers the specified error with no write; a failure at any write it performs rolls all back; otherwise commits the specified confirmation |
| AdminController.RefundConfirmedRecords | app/Http/Controllers/Admin/AdminController.php:303-319 | confirmation completes the refund and marks its transaction refunded, and changes no other refund or transaction and none of the fees, invoices and bills; the refund invariant holds, the transaction is no longer refundable, and a second confirmation answers already processed |
| AdminController.RefundConfirmedBalances | app/Http/Controllers/Admin/AdminController.php:321-338 | the user gains the refund amount, an attached app loses it (they cancel when they are the same row), the first system account loses a positive fee_refunded, no other field of those rows changes, nobody else changes, the fees, invoices and bills are unchanged, and the total moves by the same |
| AdminController.AdminDeposit | app/Http/Controllers/Admin/AdminController.php:426-474 | a top-up commits exactly when the user exists and the amount is at least 0.01 |
| AdminController.IncreaseUserBalance | app/Http/Controllers/Admin/AdminController.php:446-474 | answers the specified error with no write; a failure at either write rolls both back; otherwise commits the specified top-up and returns the new transaction id |
| AdminController.AdminDepositEffect | app/Http/Controllers/Admin/AdminController.php:451-463 | a top-up credits exactly the amount to that user alone, changing no other field of the row, records a fee-free completed deposit, changes no other table, keeps the refund invariant and raises the total by the amount |
| AdminController.InvoiceAdded | app/Http/Controllers/Admin/AdminController.php:163-186 | the call succeeds exactly when the user exists, the amount is at least 0.01 and a given bill exists |
| AdminController.AddInvoice | app/Http/Controllers/Admin/AdminController.php:163-186 | commits the specified invoice and returns its id, or answers the specified error with no write |
| AdminController.InvoiceAddedEffect | app/Http/Controllers/Admin/AdminController.php:177-183 | a successful addInvoice appends one paid invoice with the given user, bill and amount; nothing else changes, so no balance moves and the refund invariant holds |
| AdminController.BillEdited | app/Http/Controllers/Admin/AdminController.php:120-148 | a bill_info over 255 characters is refused; otherwise the edit succeeds exactly when the bill exists |
| AdminController.BillEditedEffect | app/Http/Controllers/Admin/AdminController.php:138-145 | a successful edit replaces only the given bill_info and status of that one bill; no other bill or table changes, so no balance moves and the refund invariant holds |
| AdminController.EditBill | app/Http/Controllers/Admin/AdminController.php:131-145 | replaces only the given fields and commits the specified bill, or answers the specified error with no write |
| AdminController.DisplayName | app/Http/Controllers/Admin/AdminController.php:541-550 | the lookup from the two seeded account names to their Arabic display names; any other name is shown as stored |
| AdminController.Summary | app/Http/Controllers/Admin/AdminController.php:533-570 | the summary lists every system account with its balance and display name; overall_balance is the system accounts' sum plus the users' sum; the counts are the table sizes |
| AdminController.SummaryNonNegative | app/Http/Controllers/Admin/AdminController.php:553-555 | while no user or system account balance is negative, the overall balance getSummary reports is not negative |
| AdminController.SummaryAddsUp | app/Http/Controllers/Admin/AdminController.php:547-555 | overall_balance equals the balances the summary lists plus the users' balances, despite the renaming |
| LedgerProperties.PaymentRefundRoundTrip | app/Http/Controllers/Admin/AdminController.php:321-338 | for a payer other than the app: pay, then the app requests a refund, then an admin confirms it; every step commits, the app and the system account return to their old balances, the payer is down exactly the fee, the transaction is refunded, and the total is down by the fee |
| LedgerProperties.WorkedPayment | app/Http/Controllers/User/ThirdPartyController.php:49-91 | a user holding 100.00 who is charged 50.00 at 2% pays a 1.00 fee and ends at 49.00; the app gets 50.00 and the fees account 1.00; the Fee row as ThirdPartyController writes it at lines 88-91, with no system account, is refused |

## Left out

- HTTP concerns are not modelled: authentication, the role middleware, route model binding, and JSON or redirect response shapes. A missing user or bill in an admin route is modelled as `NotFound`. Each method's caller is an existing users row.
- Free text is not modelled: descriptions, refund reasons and validation messages.
- Request amounts are taken as whole cents, and PHP float arithmetic is not modelled. Exact decimal arithmetic is used instead, and values are rounded only where a `decimal(15,2)` column stores them.
- Money.RoundToCents: rounds a half cent up. MySQL rounds it away from zero, so the two differ only when a negative balance meets a half-cent settlement share.
- Overflow of `decimal(15,2)` is not modelled.
- `integerValue`, the global helper used in bill settlement, is not part of this model. It is a parameter from exact amounts to exact amounts.
- The third-party fee percentage is a parameter. The users table has no `fee_percentage` column, so the configured default applies.
- Clock reads (`now()`) are a parameter. A bill's `due_date` is a date column, but the model stores the instant and does not truncate the time of day.
- Concurrency is not modelled. Nothing locks a row between the balance check and the debit.
- Auto-increment ids are not modelled: after a rollback the model reuses the ids, while the database skips them.
- In confirmRefund, a missing transaction, user or system account is modelled as a failure that rolls back. In PHP this surfaces as an uncaught `Error`; the open database transaction is then discarded rather than rolled back by the handler.
- In initiateTransaction, an empty system-accounts table is modelled the same way (`ThirdPartyPayment` answers `OperationFailed` and nothing changes). In PHP, `PaymentSystemAccount::first()` returns null, and the write at ThirdPartyController.php:70-71 raises an uncaught `Error` that the `catch (\Exception)` handler does not see.
- AdminController.BillEdited: does not model an explicitly null `bill_info` or `status`. Both columns are NOT NULL, so that save throws.
- The other AdminController actions are not part of this model: listings, `addBill`, `deleteBill`, `updateUser` and `deleteUser`. The admin user CRUD with OTP is not part of this model either.

## Findings

| source | as written | input that shows it | evidently intended | confidence | as-written member | corrected member |
|---|---|---|---|---|---|---|
| app/Http/Controllers/User/ThirdPartyController.php:88-91 | the Fee row leaves out `payment_system_account_id`, which the fees table declares NOT NULL. The insert throws and the whole payment rolls back. | a user holding 100.00 charged 50.00 at 2% | the Fee row names the system account credited at line 70, and the payment commits | high, assuming MySQL strict mode; not executed | ThirdPartyController.InitiateTransaction, LedgerProperties.WorkedPayment | ThirdPartyController.ThirdPartyPayment |
