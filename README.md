# Bank ledger service: a Dafny model

This project models a small banking web service written in Python. Users register with a
username and password. Each user has a cash balance (`Own`) and a debt balance (`Debt`),
and can deposit, transfer, check the balance, take a loan and repay it. Six request handlers
do the work. Each one checks that the posted document holds the keys it needs, verifies the
credentials, validates the amount and the balance, and then applies a short sequence of
single-field reads and writes to a per-username record store. Every cash-affecting operation
charges a fixed `FEE = 1` and credits it to the distinguished `BANK` account.

The model has five modules:

- `Accounts` (accounts.dfy): the account record and the store (a map from username to
  record). It holds the single-field writes `update_balance`, `update_debt` and `take_bank_fee`
  as functions on the map, the bcrypt stand-in, and the cash and debt totals of the ledger,
  with lemmas on how each write moves them.
- `Checks` (checks.dfy): the posted document, the replies, and the read-only checks
  `check_parameters`, `check_credentials`, `validate_amount` and `validate_balance`.
  `check_parameters` is both a specification function and a method with the service's
  accumulating loop.
- `Handlers` (handlers.dfy): one function per handler. Each maps the store before a request
  to the reply and the store after it. Its checks run in the service's order, and its writes
  are the service's writes, each applied to the store as the previous writes left it.
- `App` (app.dfy): the Python service as it runs. The class `Users` has the record map as
  a field. Its methods are the store helpers and the six `post` handlers. They update the map
  one field at a time, in the service's order. Each handler method is proved to give exactly the
  reply and the new store that the matching `Handlers` function gives, and to keep the ledger
  invariant.
- `Properties` (properties.dfy): what the handlers promise. This covers the success effects
  (stated per account, so that self-transfers and BANK acting on itself are covered), the
  check order and the reply of each failure, that failures change nothing, that balances never
  go negative, and how the ledger totals move.

Abstractions:

- The MongoDB collection is a `map<string, Account>`.
- bcrypt is a hash `HashPw(password, salt)` that keeps its whole password. `CheckPw` re-hashes
  with the stored salt and compares. Real bcrypt reads only the first 72 bytes; see "Left out".
- The salt that `bcrypt.gensalt()` draws is a parameter of `Register`.
- A posted JSON document is a record of optional fields. A key that is absent is `None`.
  The password's value is itself optional: a key posted with JSON `null` is `Some(None)`.
- A reply is the message kind (with its data) and the status code. A handler that returns
  Python's `None` gives `NoReply`: the client receives a JSON `null` body, with no message
  and no status code. An exception that a handler does not catch gives `Fault`;
  the web framework answers it with HTTP 500.
- `BANK` must be in the store for the four fee-charging handlers. The service crashes at
  web/app.py:124 when it is not.

Behaviour of the code that the model keeps:

- Transfer to an unknown recipient returns Python's `None`, which reaches the client as JSON
  `null`, with no message and no status code. It does not return a 305 "no such user" reply.
- A password posted as `null` is handed to `check_credentials` as `None`, which is the
  existence-only query (web/app.py:45, 52-55). For a registered user that query passes, so
  Add, Transfer, Balance, TakeLoan and PayLoan go ahead without any password check
  (`Properties.NullPasswordAdmitted`, `Properties.NullPasswordTransfer`). For an unknown user
  they return Python's `None` (`Properties.NullPasswordUnknownUser`). Register with a `null`
  password for a new username raises at web/app.py:79 before anything is inserted
  (`Properties.RegisterNullPassword`).
- An exception after a first write leaves the earlier writes in place, because there is
  no transaction. The only exception the model keeps is Register's null password, raised
  before any write; the exceptions after a first write are under "Left out".
- The code has no locking.

For integer amounts the deposit arithmetic never lowers a balance. An amount that passes
validation is at least 1, which is `FEE`.

## Model

| member | source | states |
|---|---|---|
| Accounts.CheckPwOfHash | web/app.py:57-60 | a password passes the check against the stored hash of that same password; the stand-in hash also rejects every other candidate (see "Left out") |
| Accounts.WithOwnAt | web/app.py:99-100 | after setting a user's cash, that record differs from before only in its cash and every other record is untouched, whether or not the username is known |
| Accounts.WithDebtAt | web/app.py:103-104 | after setting a user's debt, that record differs from before only in its debt and every other record is untouched |
| Accounts.WithOwnTotals | web/app.py:99-100 | setting a user's cash moves the ledger's cash total by exactly the change and leaves the debt total alone |
| Accounts.WithDebtTotals | web/app.py:103-104 | setting a user's debt moves the debt total by exactly the change and leaves the cash total alone |
| Accounts.WithBankFeeTotals | web/app.py:123-125 | taking a bank fee adds exactly the fee to the cash total |
| Accounts.TotalReplace | web/app.py:99-104 | replacing one record changes a ledger total by that record's difference and nothing else |
| Accounts.TotalInsert | web/app.py:81-86 | inserting a fresh record adds exactly that record's value to a ledger total |
| Checks.MissingListEmpty | web/app.py:35-42 | the accumulated missing-key list is empty exactly when every required key is posted |
| Checks.Parameters | web/app.py:35-42 | passes exactly when every required key is posted; otherwise a 305 reply listing the missing keys in order |
| Checks.CheckParameters | web/app.py:35-42 | the loop over the required keys returns exactly the verdict and reply of `Parameters` |
| Checks.CheckCredentials | web/app.py:45-61 | without a password, passes exactly when the user exists; with one, exactly when the user exists and the password matches; the reply is empty exactly for an unknown user without password and for a valid login; an unknown user with a password gets 305, a known user without one 301, a failing password 302 |
| Checks.MissingListSamePresence | web/app.py:35-39 | the missing-key list depends only on which keys are posted, not on their values |
| Checks.ValidateAmount | web/app.py:107-111 | passes exactly when the amount is strictly positive, otherwise the 304 "not positive" reply |
| Checks.ValidateBalance | web/app.py:114-120 | passes exactly when the user's cash covers the amount, otherwise 304 naming the amount |
| Accounts.HashPw | web/app.py:79 | definition of `bcrypt.hashpw` (the stand-in); the hash keeps its salt, and its promises are stated in Accounts.CheckPwOfHash |
| Accounts.CheckPw | web/app.py:57-59 | definition of `bcrypt.checkpw`: re-hash with the stored salt and compare; its promises are stated in Accounts.CheckPwOfHash |
| Accounts.UserCash | web/app.py:91-92 | definition of `user_cash`: the named record's Own; read by ValidateBalance, WithBankFee and the handlers |
| Accounts.UserDebt | web/app.py:95-96 | definition of `user_debt`: the named record's Debt; read by Borrow, PayLoan and the handlers |
| Checks.Present | web/app.py:38 | definition of `c in posted_data`: the key is posted, whatever its value (a null included); its promises are stated in Checks.Parameters and Checks.MissingListSamePresence |
| Checks.Quoted | web/app.py:39 | definition of the piece appended for one missing key: the key in single quotes, then a comma; its ensures gives its length as the key's plus three |
| Accounts.WithOwn | web/app.py:99-100 | definition of `update_balance`'s effect; the key set is kept, and its promises are stated in Accounts.WithOwnAt and Accounts.WithOwnTotals |
| Accounts.WithDebt | web/app.py:103-104 | definition of `update_debt`'s effect; the key set is kept, and its promises are stated in Accounts.WithDebtAt and Accounts.WithDebtTotals |
| Accounts.WithBankFee | web/app.py:123-125 | definition of `take_bank_fee`'s effect; the key set is kept, and its promises are stated in Accounts.WithBankFeeTotals |
| Handlers.Register | web/app.py:64-88 | definition of the Register handler; its promises are stated in Properties.RegisterNewUser, RegisterNullPassword, RegisterExistingUser and RegisterTwice |
| Handlers.Deposit | web/app.py:148-150 | definition of the deposit's writes; its promises are stated in Properties.DepositAt, DepositTotals and DepositEffect |
| Handlers.Add | web/app.py:128-152 | definition of the Add handler; its promises are stated in Properties.AddSucceeds, AddByCustomer and AddByBank |
| Handlers.MoveCash | web/app.py:184-188 | definition of the transfer's writes; its promises are stated in Properties.MoveCashAt, MoveCashTotals and MoveCashEffect |
| Handlers.Transfer | web/app.py:155-190 | definition of the Transfer handler; its promises are stated in Properties.TransferRejectsSender through Properties.SelfTransfer |
| Handlers.Balance | web/app.py:193-211 | definition of the Balance handler; its promises are stated in Properties.BalanceNeverWrites and BalanceReports |
| Handlers.Borrow | web/app.py:234-238 | definition of the loan's writes; its promises are stated in Properties.BorrowAt, BorrowTotals and BorrowEffect |
| Handlers.TakeLoan | web/app.py:214-240 | definition of the TakeLoan handler; its promises are stated in Properties.TakeLoanSucceeds |
| Handlers.Repay | web/app.py:272-274 | definition of the repayment's writes; its promises are stated in Properties.RepayAt, RepayTotals and RepayEffect |
| Handlers.PayLoan | web/app.py:243-276 | definition of the PayLoan handler; its promises are stated in Properties.PayLoanInsufficientFunds through Properties.PayLoanNothingOwed |
| Handlers.Handle | web/app.py:279-284 | definition of the dispatch of a request to its resource; its promises are stated in Properties.MissingParameterReported through Properties.HandleNetWorth |
| Handlers.Clamp | web/app.py:265-266 | the repaid amount is at most the offered amount and at most the debt, and equals one of them |
| App.Users.InsertOne | web/app.py:81-86 | for a username not yet on file, the collection gains the given record under it |
| App.Users.UpdateBalance | web/app.py:99-100 | only the named user's cash is set; no record changes for an unknown name |
| App.Users.UpdateDebt | web/app.py:103-104 | only the named user's debt is set; no record changes for an unknown name |
| App.Users.TakeBankFee | web/app.py:123-125 | BANK's cash is re-read and increased by the fee |
| App.Users.Register | web/app.py:64-88 | the step-by-step handler yields the reply and store of `Handlers.Register` and keeps the ledger invariant |
| App.Users.Add | web/app.py:128-152 | the step-by-step handler yields the reply and store of `Handlers.Add` and keeps the ledger invariant |
| App.Users.Transfer | web/app.py:155-190 | the step-by-step handler, re-reading the recipient after the debit, yields the reply and store of `Handlers.Transfer` and keeps the ledger invariant |
| App.Users.Balance | web/app.py:193-211 | reads the collection only and returns the reply of `Handlers.Balance` |
| App.Users.TakeLoan | web/app.py:214-240 | the step-by-step handler yields the reply and store of `Handlers.TakeLoan` and keeps the ledger invariant |
| App.Users.PayLoan | web/app.py:243-276 | the step-by-step handler, capping the amount at the debt, yields the reply and store of `Handlers.PayLoan` and keeps the ledger invariant |
| Properties.DepositAt | web/app.py:148-150 | one account after a deposit: the user's cash moves by amount - FEE, BANK's by + FEE (both when BANK deposits), nothing else changes |
| Properties.DepositTotals | web/app.py:148-150 | a deposit raises the cash total by exactly the amount and leaves the debt total alone |
| Properties.MoveCashAt | web/app.py:184-188 | one account after a transfer: the sender's cash moves by -(amount + FEE), the recipient's by + amount, BANK's by + FEE, added up when roles coincide |
| Properties.MoveCashTotals | web/app.py:184-188 | a transfer conserves the cash total and leaves the debt total alone |
| Properties.BorrowAt | web/app.py:234-238 | one account after a loan: the user's cash moves by + amount and debt by + amount + FEE, BANK's cash by + FEE |
| Properties.BorrowTotals | web/app.py:234-238 | a loan raises both the cash and the debt totals by amount + FEE |
| Properties.RepayAt | web/app.py:272-274 | one account after a repayment: the user's cash moves by -(paid + FEE) and debt by - paid, BANK's cash by + FEE |
| Properties.RepayTotals | web/app.py:272-274 | a repayment lowers both the cash and the debt totals by exactly the amount paid |
| Properties.DepositEffect | web/app.py:148-150 | a deposit changes every account by the sum of its roles (user: amount - FEE, BANK: + FEE), keeps the key set, and raises the cash total by the amount |
| Properties.MoveCashEffect | web/app.py:184-188 | a transfer changes every account by the sum of its roles (sender: -(amount + FEE), recipient: + amount, BANK: + FEE) and conserves both totals |
| Properties.BorrowEffect | web/app.py:234-238 | a loan adds amount to the user's cash and amount + FEE to its debt, FEE to BANK's cash; both totals rise by amount + FEE |
| Properties.RepayEffect | web/app.py:272-274 | a repayment takes paid + FEE from the user's cash and paid from its debt, FEE to BANK; both totals fall by paid |
| Properties.RegisterNewUser | web/app.py:73-88 | for a fresh username: reply 200, exactly one new record with Own = 0, Debt = 0 and a hash its password passes, totals unchanged |
| Properties.RegisterNullPassword | web/app.py:75-79 | a new username posted with a null password makes hashing raise: the reply is HTTP 500 and nothing is inserted |
| Properties.RegisterExistingUser | web/app.py:75-77 | for an existing username: reply 301 and the store unchanged |
| Properties.RegisterTwice | web/app.py:73-88 | registering a username a second time is refused with 301 and changes nothing |
| Properties.AddSucceeds | web/app.py:143-152 | an authenticated positive deposit replies 200 and changes each account by the sum of its roles; the cash total rises by the amount |
| Properties.AddByCustomer | web/app.py:148-150 | a customer's cash becomes old + amount - FEE and BANK's rises by FEE |
| Properties.AddByBank | web/app.py:148-150 | when BANK deposits, the fee returns to it: its cash nets + amount and nothing else changes |
| Properties.TransferRejectsSender | web/app.py:166-168 | failing sender credentials give 305 (unknown user), 302 (wrong password) or, with a null password for an unknown user, Python's `None`, whatever the recipient and amount, and change nothing |
| Properties.TransferUnknownRecipient | web/app.py:170-173 | an unknown recipient gives no reply document, before the amount is looked at, and changes nothing |
| Properties.TransferNonPositiveAmount | web/app.py:175-178 | with a known recipient, a non-positive amount gives 304 before the balance is looked at and changes nothing |
| Properties.TransferInsufficientFunds | web/app.py:180-182 | cash below amount + FEE gives 304 naming amount + FEE and changes nothing |
| Properties.TransferSucceeds | web/app.py:184-190 | a covered transfer replies 200, changes each account by the sum of its roles, and conserves the cash and debt totals |
| Properties.TransferBetweenCustomers | web/app.py:184-188 | between two customers: sender - (amount + FEE), recipient + amount, BANK + FEE |
| Properties.SelfTransfer | web/app.py:184-187 | because the recipient is re-read after the debit, a customer sending to itself loses only FEE |
| Properties.BalanceNeverWrites | web/app.py:193-211 | Balance leaves the store unchanged for every request |
| Properties.BalanceReports | web/app.py:208-211 | an authenticated Balance request replies 200 with the user's cash and debt |
| Properties.TakeLoanSucceeds | web/app.py:229-240 | Own becomes cash + amount, Debt becomes debt + amount + FEE, BANK gains FEE; reply 200 |
| Properties.PayLoanInsufficientFunds | web/app.py:263-270 | cash below min(amount, debt) + FEE gives 304 naming that sum and changes nothing |
| Properties.PayLoanSucceeds | web/app.py:263-276 | a covered repayment pays min(amount, debt): Own falls by that + FEE, Debt by that and is never negative afterwards, BANK gains FEE; both totals fall by the amount paid |
| Properties.PayLoanClearsDebt | web/app.py:265-273 | offering at least the whole debt leaves the debt at 0 |
| Properties.PayLoanNothingOwed | web/app.py:263-274 | with debt 0 only the fee is charged |
| Properties.TakeLoanThenPayLoan | web/app.py:234-274 | borrowing an amount and repaying it leaves a customer with cash - FEE and debt + FEE, and BANK with + 2 FEE |
| Properties.MissingParameterReported | web/app.py:35-42 | on every resource, a missing required key gives 305 with the missing-key list, before any other check, and changes nothing |
| Properties.UnknownUserReported | web/app.py:47-50 | every resource but Register answers an unknown user posting a password with 305 and changes nothing |
| Properties.WrongPasswordReported | web/app.py:58-60 | every resource but Register answers a wrong password with 302 and changes nothing |
| Properties.NullPasswordUnknownUser | web/app.py:45-49 | every resource but Register answers an unknown user posting a null password with Python's `None` (no message, no status) and changes nothing |
| Properties.NullPasswordAdmitted | web/app.py:45-55 | on every resource but Register, a registered user posting a null password gets exactly the outcome that the user's real password gets |
| Properties.NullPasswordTransfer | web/app.py:162-188 | a transfer posting only the sender's username and a null password succeeds and takes amount + FEE from the sender |
| Properties.NonPositiveAmountReported | web/app.py:107-111 | Add, TakeLoan and PayLoan answer an authenticated non-positive amount with 304 and change nothing |
| Properties.FailureChangesNothing | web/app.py:64-276 | on every resource, a request that does not end in a 200 reply leaves the store unchanged |
| Properties.RegisterPreservesSolvent | web/app.py:81-86 | registration keeps BANK present and every cash and debt non-negative |
| Properties.AddPreservesSolvent | web/app.py:143-150 | a deposit keeps every cash and debt non-negative |
| Properties.TransferPreservesSolvent | web/app.py:175-188 | a transfer keeps every cash and debt non-negative; the balance check is what keeps the sender's |
| Properties.TakeLoanPreservesSolvent | web/app.py:229-238 | a loan keeps every cash and debt non-negative |
| Properties.PayLoanPreservesSolvent | web/app.py:258-274 | a repayment keeps every cash and debt non-negative; the cap and the balance check keep them |
| Properties.HandlePreservesSolvent | web/app.py:107-120 | every resource keeps the ledger invariant: BANK present, no cash or debt negative |
| Properties.AddNetWorth | web/app.py:148-150 | a successful deposit raises cash minus debt by the amount; any other outcome leaves it |
| Properties.TransferNetWorth | web/app.py:184-188 | a transfer leaves cash minus debt over the ledger unchanged |
| Properties.TakeLoanNetWorth | web/app.py:234-238 | a loan leaves cash minus debt over the ledger unchanged (its fee is added to debt) |
| Properties.PayLoanNetWorth | web/app.py:272-274 | a repayment leaves cash minus debt over the ledger unchanged |
| Properties.RegisterNetWorth | web/app.py:81-86 | registering leaves cash minus debt over the ledger unchanged |
| Properties.HandleNetWorth | web/app.py:64-276 | on every resource, cash minus debt over the ledger changes only by a successful deposit's amount |
| Properties.AliceAndBob | web/app.py:64-211 | signing up alice, depositing 100, signing up bob and sending bob 50 gives 200 replies, alice 99 then 48, bob 50, BANK + 2, and alice's balance reply reports 48 and 0 |

## Left out

- HTTP plumbing (web/app.py:19-20, 27-32, 279-287) is not modelled beyond `Handlers.Handle`, which dispatches a request to its resource: URLs, `request.get_json`, JSON rendering and `app.run` are left out. A reply is modelled as its message kind and status code. The message wording is not modelled.
- The MongoDB client (web/app.py:22-24) is not modelled. The collection is a map. A store that is unreachable or fails a write is not modelled.
- 64-bit integers are not modelled. MongoDB stores 64-bit integers, and the driver raises OverflowError for any other value. Amounts and balances here are unbounded, so a write that would overflow succeeds in the model. Example: TakeLoan of 2^63 - 1 with Own = 0 and Debt = 0. The service writes Own at web/app.py:236, raises at :237, leaves Debt at 0, takes no fee, and answers HTTP 500. The model answers 200 with Debt = 2^63.
- Partial writes are not modelled. They come from an exception after a first write: the overflow above, or a missing `BANK` record (web/app.py:124), which raises after the user's write at :149, :185-187, :236-237 or :272-273. Every handler function here applies all its writes or none.
- Accounts.CheckPwOfHash: its "only that password" half holds for the stand-in hash only. bcrypt reads only the first 72 bytes of the UTF-8 password (web/app.py:59, 79), so in the service two passwords sharing those bytes both pass.
- bcrypt itself (web/app.py:59, 79) is not modelled. It is replaced by a hash that keeps the password and takes an explicit salt, so timing and salting strength are not modelled.
- Concurrency is not modelled. Each request runs alone and to completion, so the read-modify-write races between concurrent requests are out of scope.
- Amounts are integers. JSON floats, strings or `null` posted as `amount`, and `null` or non-string values posted as `username` or `to`, are not modelled. The code has no typed handling for them. A `null` password is modelled; non-string, non-null values posted as `password` (a number, a boolean, a list or an object) are not: the service raises at web/app.py:59 for a registered user on Add, Transfer, Balance, TakeLoan and PayLoan, and at :79 in Register for a new username, answering HTTP 500 without writing.
- Strings holding an unpaired surrogate (a JSON `\ud800` escape) are not modelled: Dafny's `string` cannot hold them. The service raises when it encodes such a password at web/app.py:59 or :79, or such a username for the query at :46, and answers HTTP 500 without writing.
- A missing `BANK` record is not modelled. The four fee-charging handlers require `BANK` in the store, because the service crashes at web/app.py:124 without it.
