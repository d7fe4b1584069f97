/**
 * What the handlers promise: the reply and store of every success path, the
 * order in which the checks reject a request, that a rejected request leaves the
 * store as it was, that no handler makes a balance negative, and how the ledger
 * totals move.
 */
module Properties {
  import opened Accounts
  import opened Checks
  import opened Handlers

  /**
   * The request passes check_credentials: it names a registered user and posts
   * either that user's password or a null one (which the check reads as None,
   * the existence-only query, and so lets through).
   */
  predicate Admitted(users: Store, req: Request)
  {
    && req.username.Some? && req.password.Some?
    && req.username.value in users
    && (req.password.value.Some? ==> CheckPw(req.password.value.value, users[req.username.value].password))
  }

  /** Every key in `required` is posted. */
  predicate HasAll(req: Request, required: seq<string>)
  {
    forall c :: c in required ==> Present(req, c)
  }

  /** Cash minus debt over the whole ledger. */
  ghost function NetWorth(users: Store): int
  {
    Total(users, Own) - Total(users, Debt)
  }

  // ---------------------------------------------------------------------------
  // Store effects
  // ---------------------------------------------------------------------------

  /** A deposit raises the cash total by the amount and leaves the debt total alone. */
  lemma DepositTotals(users: Store, username: Username, amount: int)
    requires username in users && BANK in users
    ensures var after := Deposit(users, username, amount);
      && Total(after, Own) == Total(users, Own) + amount
      && Total(after, Debt) == Total(users, Debt)
  {
    var s1 := WithOwn(users, username, users[username].own + amount - FEE);
    WithOwnTotals(users, username, users[username].own + amount - FEE);
    WithBankFeeTotals(s1, FEE);
  }

  /** How a deposit changes one account. */
  lemma DepositAt(users: Store, username: Username, amount: int, k: Username)
    requires username in users && BANK in users && k in users
    ensures Deposit(users, username, amount)[k]
         == users[k].(own := users[k].own
                             + (if k == username then amount - FEE else 0)
                             + (if k == BANK then FEE else 0))
  {
    var s1 := WithOwn(users, username, users[username].own + amount - FEE);
    WithOwnAt(users, username, users[username].own + amount - FEE, k);
    WithOwnAt(s1, BANK, s1[BANK].own + FEE, k);
  }

  /**
   * A deposit of `amount` credits the user amount - FEE and BANK FEE; each
   * account changes by the sum of the roles it plays, so BANK depositing into
   * itself nets +amount. Nothing else changes; the cash total grows by amount.
   */
  lemma DepositEffect(users: Store, username: Username, amount: int)
    requires username in users && BANK in users
    ensures var after := Deposit(users, username, amount);
      && after.Keys == users.Keys
      && (forall k :: k in users ==>
            after[k] == users[k].(own := users[k].own
                                         + (if k == username then amount - FEE else 0)
                                         + (if k == BANK then FEE else 0)))
      && Total(after, Own) == Total(users, Own) + amount
      && Total(after, Debt) == Total(users, Debt)
  {
    forall k | k in users {
      DepositAt(users, username, amount, k);
    }
    DepositTotals(users, username, amount);
  }

  /** A transfer conserves the cash total and leaves the debt total alone. */
  lemma MoveCashTotals(users: Store, from: Username, to: Username, amount: int)
    requires from in users && to in users && BANK in users
    ensures var after := MoveCash(users, from, to, amount);
      && Total(after, Own) == Total(users, Own)
      && Total(after, Debt) == Total(users, Debt)
  {
    var s1 := WithOwn(users, from, users[from].own - amount - FEE);
    var s2 := WithOwn(s1, to, s1[to].own + amount);
    WithOwnTotals(users, from, users[from].own - amount - FEE);
    WithOwnTotals(s1, to, s1[to].own + amount);
    WithBankFeeTotals(s2, FEE);
  }

  /** How a transfer changes one account. */
  lemma MoveCashAt(users: Store, from: Username, to: Username, amount: int, k: Username)
    requires from in users && to in users && BANK in users && k in users
    ensures MoveCash(users, from, to, amount)[k]
         == users[k].(own := users[k].own
                             - (if k == from then amount + FEE else 0)
                             + (if k == to then amount else 0)
                             + (if k == BANK then FEE else 0))
  {
    var s1 := WithOwn(users, from, users[from].own - amount - FEE);
    var s2 := WithOwn(s1, to, s1[to].own + amount);
    WithOwnAt(users, from, users[from].own - amount - FEE, k);
    WithOwnAt(s1, to, s1[to].own + amount, k);
    WithOwnAt(s2, BANK, s2[BANK].own + FEE, k);
  }

  /**
   * A transfer debits the sender amount + FEE, credits the recipient amount as
   * re-read after the debit, and credits BANK FEE: each account changes by the
   * sum of its roles, and the cash total is conserved.
   */
  lemma MoveCashEffect(users: Store, from: Username, to: Username, amount: int)
    requires from in users && to in users && BANK in users
    ensures var after := MoveCash(users, from, to, amount);
      && after.Keys == users.Keys
      && (forall k :: k in users ==>
            after[k] == users[k].(own := users[k].own
                                         - (if k == from then amount + FEE else 0)
                                         + (if k == to then amount else 0)
                                         + (if k == BANK then FEE else 0)))
      && Total(after, Own) == Total(users, Own)
      && Total(after, Debt) == Total(users, Debt)
  {
    forall k | k in users {
      MoveCashAt(users, from, to, amount, k);
    }
    MoveCashTotals(users, from, to, amount);
  }

  /** A loan raises both totals by amount + FEE. */
  lemma BorrowTotals(users: Store, username: Username, amount: int)
    requires username in users && BANK in users
    ensures var after := Borrow(users, username, amount);
      && Total(after, Own) == Total(users, Own) + amount + FEE
      && Total(after, Debt) == Total(users, Debt) + amount + FEE
  {
    var s1 := WithOwn(users, username, users[username].own + amount);
    var s2 := WithDebt(s1, username, users[username].debt + amount + FEE);
    WithOwnTotals(users, username, users[username].own + amount);
    WithDebtTotals(s1, username, users[username].debt + amount + FEE);
    WithBankFeeTotals(s2, FEE);
  }

  /** How a loan changes one account. */
  lemma BorrowAt(users: Store, username: Username, amount: int, k: Username)
    requires username in users && BANK in users && k in users
    ensures Borrow(users, username, amount)[k]
         == users[k].(own := users[k].own
                             + (if k == username then amount else 0)
                             + (if k == BANK then FEE else 0),
                      debt := users[k].debt + (if k == username then amount + FEE else 0))
  {
    var s1 := WithOwn(users, username, users[username].own + amount);
    var s2 := WithDebt(s1, username, users[username].debt + amount + FEE);
    WithOwnAt(users, username, users[username].own + amount, k);
    WithDebtAt(s1, username, users[username].debt + amount + FEE, k);
    WithOwnAt(s2, BANK, s2[BANK].own + FEE, k);
  }

  /**
   * A loan adds amount to the user's cash and amount + FEE to its debt, and FEE
   * to BANK's cash; both totals grow by amount + FEE.
   */
  lemma BorrowEffect(users: Store, username: Username, amount: int)
    requires username in users && BANK in users
    ensures var after := Borrow(users, username, amount);
      && after.Keys == users.Keys
      && (forall k :: k in users ==>
            after[k] == users[k].(own := users[k].own
                                         + (if k == username then amount else 0)
                                         + (if k == BANK then FEE else 0),
                                  debt := users[k].debt + (if k == username then amount + FEE else 0)))
      && Total(after, Own) == Total(users, Own) + amount + FEE
      && Total(after, Debt) == Total(users, Debt) + amount + FEE
  {
    forall k | k in users {
      BorrowAt(users, username, amount, k);
    }
    BorrowTotals(users, username, amount);
  }

  /** A repayment lowers both totals by the amount paid. */
  lemma RepayTotals(users: Store, username: Username, paid: int)
    requires username in users && BANK in users
    ensures var after := Repay(users, username, users[username].own, users[username].debt, paid);
      && Total(after, Own) == Total(users, Own) - paid
      && Total(after, Debt) == Total(users, Debt) - paid
  {
    var s1 := WithOwn(users, username, users[username].own - paid - FEE);
    var s2 := WithDebt(s1, username, users[username].debt - paid);
    WithOwnTotals(users, username, users[username].own - paid - FEE);
    WithDebtTotals(s1, username, users[username].debt - paid);
    WithBankFeeTotals(s2, FEE);
  }

  /** How a repayment changes one account. */
  lemma RepayAt(users: Store, username: Username, paid: int, k: Username)
    requires username in users && BANK in users && k in users
    ensures Repay(users, username, users[username].own, users[username].debt, paid)[k]
         == users[k].(own := users[k].own
                             - (if k == username then paid + FEE else 0)
                             + (if k == BANK then FEE else 0),
                      debt := users[k].debt - (if k == username then paid else 0))
  {
    var s1 := WithOwn(users, username, users[username].own - paid - FEE);
    var s2 := WithDebt(s1, username, users[username].debt - paid);
    WithOwnAt(users, username, users[username].own - paid - FEE, k);
    WithDebtAt(s1, username, users[username].debt - paid, k);
    WithOwnAt(s2, BANK, s2[BANK].own + FEE, k);
  }

  /**
   * A repayment of `paid` from the user's current cash and debt takes paid + FEE
   * from its cash and paid from its debt, and adds FEE to BANK's cash; both
   * totals shrink by paid.
   */
  lemma RepayEffect(users: Store, username: Username, paid: int)
    requires username in users && BANK in users
    ensures var after := Repay(users, username, users[username].own, users[username].debt, paid);
      && after.Keys == users.Keys
      && (forall k :: k in users ==>
            after[k] == users[k].(own := users[k].own
                                         - (if k == username then paid + FEE else 0)
                                         + (if k == BANK then FEE else 0),
                                  debt := users[k].debt - (if k == username then paid else 0)))
      && Total(after, Own) == Total(users, Own) - paid
      && Total(after, Debt) == Total(users, Debt) - paid
  {
    forall k | k in users {
      RepayAt(users, username, paid, k);
    }
    RepayTotals(users, username, paid);
  }

  // ---------------------------------------------------------------------------
  // Register
  // ---------------------------------------------------------------------------

  /** A fresh username gets exactly one new record, with zero cash and debt and a hash of its password. */
  lemma RegisterNewUser(users: Store, req: Request, salt: Salt)
    requires req.username.Some? && req.password.Some? && req.password.value.Some?
    requires req.username.value !in users
    ensures var (reply, after) := Register(users, req, salt);
      && reply == Json(SignedUp, OK)
      && after == users[req.username.value := Account(HashPw(req.password.value.value, salt), 0, 0)]
      && |after| == |users| + 1
      && CheckPw(req.password.value.value, after[req.username.value].password)
      && Total(after, Own) == Total(users, Own)
      && Total(after, Debt) == Total(users, Debt)
  {
    assert HasAll(req, CREDENTIAL_PARAMS);
    var acc := Account(HashPw(req.password.value.value, salt), 0, 0);
    TotalInsert(users, req.username.value, acc, Own);
    TotalInsert(users, req.username.value, acc, Debt);
  }

  /** A fresh username posted with a null password: hashing it raises, and nothing is inserted. */
  lemma RegisterNullPassword(users: Store, req: Request, salt: Salt)
    requires req.username.Some? && req.password == Some(None)
    requires req.username.value !in users
    ensures Register(users, req, salt) == (Fault, users)
  {
    assert HasAll(req, CREDENTIAL_PARAMS);
  }

  /** A username already in the store is answered with 301 and the store is left unchanged. */
  lemma RegisterExistingUser(users: Store, req: Request, salt: Salt)
    requires req.username.Some? && req.password.Some?
    requires req.username.value in users
    ensures Register(users, req, salt) == (Json(AlreadyExists(req.username.value), USER_EXISTS), users)
  {
    assert HasAll(req, CREDENTIAL_PARAMS);
  }

  /** Registering the same username twice: the second attempt is refused and changes nothing. */
  lemma RegisterTwice(users: Store, req: Request, salt1: Salt, salt2: Salt)
    requires req.username.Some? && req.password.Some? && req.password.value.Some?
    requires req.username.value !in users
    ensures var (_, after) := Register(users, req, salt1);
      Register(after, req, salt2) == (Json(AlreadyExists(req.username.value), USER_EXISTS), after)
  {
    RegisterNewUser(users, req, salt1);
    RegisterExistingUser(Register(users, req, salt1).1, req, salt2);
  }

  // ---------------------------------------------------------------------------
  // Add (deposit)
  // ---------------------------------------------------------------------------

  /** An authenticated positive deposit succeeds with exactly the deposit's effect. */
  lemma AddSucceeds(users: Store, req: Request)
    requires BANK in users && Admitted(users, req)
    requires req.amount.Some? && req.amount.value > 0
    ensures var (reply, after) := Add(users, req);
      var u, amount := req.username.value, req.amount.value;
      && reply == Json(Added, OK)
      && after.Keys == users.Keys
      && (forall k :: k in users ==>
            after[k] == users[k].(own := users[k].own
                                         + (if k == u then amount - FEE else 0)
                                         + (if k == BANK then FEE else 0)))
      && Total(after, Own) == Total(users, Own) + req.amount.value
  {
    assert HasAll(req, AMOUNT_PARAMS);
    DepositEffect(users, req.username.value, req.amount.value);
  }

  /** A user other than BANK nets amount - FEE and BANK gains FEE. */
  lemma AddByCustomer(users: Store, req: Request)
    requires BANK in users && Admitted(users, req) && req.username.value != BANK
    requires req.amount.Some? && req.amount.value > 0
    ensures var after := Add(users, req).1;
      && after[req.username.value].own == users[req.username.value].own + req.amount.value - FEE
      && after[BANK].own == users[BANK].own + FEE
  {
    AddSucceeds(users, req);
  }

  /** When BANK deposits, the fee it pays comes back to it: its cash nets +amount. */
  lemma AddByBank(users: Store, req: Request)
    requires BANK in users && Admitted(users, req) && req.username.value == BANK
    requires req.amount.Some? && req.amount.value > 0
    ensures Add(users, req).1 == users[BANK := users[BANK].(own := users[BANK].own + req.amount.value)]
  {
    AddSucceeds(users, req);
  }

  // ---------------------------------------------------------------------------
  // Transfer
  // ---------------------------------------------------------------------------

  /** A sender whose credentials fail gets the credential reply, whatever the recipient and amount. */
  lemma TransferRejectsSender(users: Store, req: Request)
    requires BANK in users
    requires req.username.Some? && req.password.Some? && req.to.Some? && req.amount.Some?
    requires !Admitted(users, req)
    ensures var u, p := req.username.value, req.password.value;
      && Transfer(users, req) == (CheckCredentials(users, u, p).1, users)
      && Transfer(users, req).0 == (if p.None? then NoReply
                                    else if u !in users then Json(NoSuchUser(u), MISSING)
                                    else Json(WrongPassword(u), WRONG_PASSWORD))
  {
    assert HasAll(req, TRANSFER_PARAMS);
  }

  /**
   * An unknown recipient is answered with Python's None (the None that
   * check_credentials returns for a missing user; the client receives a JSON
   * null with no message and no status), before the amount is looked at.
   */
  lemma TransferUnknownRecipient(users: Store, req: Request)
    requires BANK in users && Admitted(users, req)
    requires req.to.Some? && req.amount.Some? && req.to.value !in users
    ensures Transfer(users, req) == (NoReply, users)
  {
    assert HasAll(req, TRANSFER_PARAMS);
  }

  /** With a known recipient, a non-positive amount is refused with 304, before the balance is looked at. */
  lemma TransferNonPositiveAmount(users: Store, req: Request)
    requires BANK in users && Admitted(users, req)
    requires req.to.Some? && req.amount.Some? && req.to.value in users
    requires req.amount.value <= 0
    ensures Transfer(users, req) == (Json(AmountNotPositive, BAD_AMOUNT), users)
  {
    assert HasAll(req, TRANSFER_PARAMS);
  }

  /** Cash below amount + FEE is refused with 304 and the store is left unchanged. */
  lemma TransferInsufficientFunds(users: Store, req: Request)
    requires BANK in users && Admitted(users, req)
    requires req.to.Some? && req.amount.Some? && req.to.value in users
    requires req.amount.value > 0
    requires users[req.username.value].own < req.amount.value + FEE
    ensures Transfer(users, req) == (Json(BalanceBelow(req.amount.value + FEE), BAD_AMOUNT), users)
  {
    assert HasAll(req, TRANSFER_PARAMS);
  }

  /**
   * A covered transfer succeeds: the sender pays amount + FEE, the recipient
   * receives amount, BANK receives FEE, and the cash total is conserved.
   */
  lemma TransferSucceeds(users: Store, req: Request)
    requires BANK in users && Admitted(users, req)
    requires req.to.Some? && req.amount.Some? && req.to.value in users
    requires req.amount.value > 0
    requires users[req.username.value].own >= req.amount.value + FEE
    ensures var (reply, after) := Transfer(users, req);
      var from, to, amount := req.username.value, req.to.value, req.amount.value;
      && reply == Json(Transferred, OK)
      && after.Keys == users.Keys
      && (forall k :: k in users ==>
            after[k] == users[k].(own := users[k].own
                                         - (if k == from then amount + FEE else 0)
                                         + (if k == to then amount else 0)
                                         + (if k == BANK then FEE else 0)))
      && Total(after, Own) == Total(users, Own)
      && Total(after, Debt) == Total(users, Debt)
  {
    assert HasAll(req, TRANSFER_PARAMS);
    MoveCashEffect(users, req.username.value, req.to.value, req.amount.value);
  }

  /** Between two customers: the sender loses amount + FEE, the recipient gains amount, BANK gains FEE. */
  lemma TransferBetweenCustomers(users: Store, req: Request)
    requires BANK in users && Admitted(users, req)
    requires req.to.Some? && req.amount.Some? && req.to.value in users
    requires req.amount.value > 0
    requires users[req.username.value].own >= req.amount.value + FEE
    requires req.username.value != req.to.value
    requires req.username.value != BANK && req.to.value != BANK
    ensures var after := Transfer(users, req).1;
      && after[req.username.value].own == users[req.username.value].own - req.amount.value - FEE
      && after[req.to.value].own == users[req.to.value].own + req.amount.value
      && after[BANK].own == users[BANK].own + FEE
  {
    TransferSucceeds(users, req);
  }

  /**
   * Because the recipient is re-read after the sender is debited, a customer
   * transferring to itself loses just the fee.
   */
  lemma SelfTransfer(users: Store, req: Request)
    requires BANK in users && Admitted(users, req)
    requires req.to.Some? && req.amount.Some? && req.to.value == req.username.value
    requires req.username.value != BANK
    requires req.amount.value > 0
    requires users[req.username.value].own >= req.amount.value + FEE
    ensures var after := Transfer(users, req).1;
      && after[req.username.value].own == users[req.username.value].own - FEE
      && after[BANK].own == users[BANK].own + FEE
  {
    TransferSucceeds(users, req);
  }

  // ---------------------------------------------------------------------------
  // Balance
  // ---------------------------------------------------------------------------

  /** Balance never writes the store, whatever the request. */
  lemma BalanceNeverWrites(users: Store, req: Request)
    ensures Balance(users, req).1 == users
  {
  }

  /** An authenticated Balance request reports the user's cash and debt. */
  lemma BalanceReports(users: Store, req: Request)
    requires Admitted(users, req)
    ensures var u := req.username.value;
      Balance(users, req).0 == Json(BalanceIs(users[u].own, users[u].debt), OK)
  {
    assert HasAll(req, CREDENTIAL_PARAMS);
  }

  // ---------------------------------------------------------------------------
  // TakeLoan and PayLoan
  // ---------------------------------------------------------------------------

  /** A loan: cash + amount, debt + amount + FEE, BANK's cash + FEE. */
  lemma TakeLoanSucceeds(users: Store, req: Request)
    requires BANK in users && Admitted(users, req)
    requires req.amount.Some? && req.amount.value > 0
    ensures var (reply, after) := TakeLoan(users, req);
      var u, amount := req.username.value, req.amount.value;
      && reply == Json(LoanAdded, OK)
      && after.Keys == users.Keys
      && (forall k :: k in users ==>
            after[k] == users[k].(own := users[k].own
                                         + (if k == u then amount else 0)
                                         + (if k == BANK then FEE else 0),
                                  debt := users[k].debt + (if k == u then amount + FEE else 0)))
      && Total(after, Own) == Total(users, Own) + amount + FEE
      && Total(after, Debt) == Total(users, Debt) + amount + FEE
  {
    assert HasAll(req, AMOUNT_PARAMS);
    BorrowEffect(users, req.username.value, req.amount.value);
  }

  /** When the capped amount plus FEE is not covered, PayLoan answers 304 and changes nothing. */
  lemma PayLoanInsufficientFunds(users: Store, req: Request)
    requires BANK in users && Admitted(users, req)
    requires req.amount.Some? && req.amount.value > 0
    requires var u := req.username.value;
      users[u].own < Clamp(req.amount.value, users[u].debt) + FEE
    ensures var u := req.username.value;
      PayLoan(users, req) == (Json(BalanceBelow(Clamp(req.amount.value, users[u].debt) + FEE), BAD_AMOUNT), users)
  {
    assert HasAll(req, AMOUNT_PARAMS);
  }

  /**
   * A covered repayment pays min(amount, debt): cash falls by that plus FEE,
   * debt by that, BANK's cash rises by FEE; the amount repaid is never more
   * than the debt, so a non-negative debt stays non-negative.
   */
  lemma PayLoanSucceeds(users: Store, req: Request)
    requires BANK in users && Admitted(users, req)
    requires req.amount.Some? && req.amount.value > 0
    requires var u := req.username.value;
      users[u].own >= Clamp(req.amount.value, users[u].debt) + FEE
    ensures var (reply, after) := PayLoan(users, req);
      var u := req.username.value;
      var paid := if req.amount.value > users[u].debt then users[u].debt else req.amount.value;
      && reply == Json(LoanPaid, OK)
      && after.Keys == users.Keys
      && (forall k :: k in users ==>
            after[k] == users[k].(own := users[k].own
                                         - (if k == u then paid + FEE else 0)
                                         + (if k == BANK then FEE else 0),
                                  debt := users[k].debt - (if k == u then paid else 0)))
      && after[u].debt >= 0
      && Total(after, Own) == Total(users, Own) - paid
      && Total(after, Debt) == Total(users, Debt) - paid
  {
    assert HasAll(req, AMOUNT_PARAMS);
    var u := req.username.value;
    RepayEffect(users, u, Clamp(req.amount.value, users[u].debt));
  }

  /** Offering at least the whole debt clears it. */
  lemma PayLoanClearsDebt(users: Store, req: Request)
    requires BANK in users && Admitted(users, req)
    requires req.amount.Some? && req.amount.value > 0
    requires var u := req.username.value;
      req.amount.value >= users[u].debt && users[u].own >= users[u].debt + FEE
    ensures PayLoan(users, req).1[req.username.value].debt == 0
  {
    PayLoanSucceeds(users, req);
  }

  /** With nothing owed, a repayment only charges the fee. */
  lemma PayLoanNothingOwed(users: Store, req: Request)
    requires BANK in users && Admitted(users, req) && req.username.value != BANK
    requires req.amount.Some? && req.amount.value > 0
    requires users[req.username.value].debt == 0 && users[req.username.value].own >= FEE
    ensures var (reply, after) := PayLoan(users, req);
      var u := req.username.value;
      && reply == Json(LoanPaid, OK)
      && after[u] == users[u].(own := users[u].own - FEE)
      && after[BANK].own == users[BANK].own + FEE
  {
    PayLoanSucceeds(users, req);
  }

  /**
   * A customer with cash at least FEE who borrows an amount and repays the same
   * amount ends with its cash reduced by FEE and its debt raised by FEE.
   */
  lemma TakeLoanThenPayLoan(users: Store, req: Request)
    requires BANK in users && Admitted(users, req) && req.username.value != BANK
    requires req.amount.Some? && req.amount.value > 0
    requires users[req.username.value].debt >= 0 && users[req.username.value].own >= FEE
    ensures var (r1, mid) := TakeLoan(users, req);
      var (r2, after) := PayLoan(mid, req);
      var u := req.username.value;
      && r1 == Json(LoanAdded, OK) && r2 == Json(LoanPaid, OK)
      && after[u] == users[u].(own := users[u].own - FEE, debt := users[u].debt + FEE)
      && after[BANK].own == users[BANK].own + 2 * FEE
  {
    var u := req.username.value;
    TakeLoanSucceeds(users, req);
    var mid := TakeLoan(users, req).1;
    assert mid[u].password == users[u].password;
    PayLoanSucceeds(mid, req);
  }

  // ---------------------------------------------------------------------------
  // Every handler
  // ---------------------------------------------------------------------------

  /** A missing key is reported with 305 before anything else, and nothing changes. */
  lemma MissingParameterReported(route: Route, users: Store, req: Request, salt: Salt, name: string)
    requires ChargesFee(route) ==> BANK in users
    requires name in Required(route) && !Present(req, name)
    ensures Handle(route, users, req, salt) == (Json(ParametersMissing(MissingList(Required(route), req)), MISSING), users)
  {
  }

  /** Every resource but Register answers an unknown user posting a password with 305, and nothing changes. */
  lemma UnknownUserReported(route: Route, users: Store, req: Request, salt: Salt)
    requires ChargesFee(route) ==> BANK in users
    requires !route.ToRegister? && HasAll(req, Required(route))
    requires req.username.Some? && req.password.Some? && req.password.value.Some?
    requires req.username.value !in users
    ensures Handle(route, users, req, salt) == (Json(NoSuchUser(req.username.value), MISSING), users)
  {
  }

  /** Every resource but Register answers a wrong password with 302, and nothing changes. */
  lemma WrongPasswordReported(route: Route, users: Store, req: Request, salt: Salt)
    requires ChargesFee(route) ==> BANK in users
    requires !route.ToRegister? && HasAll(req, Required(route))
    requires req.username.Some? && req.password.Some? && req.password.value.Some?
    requires req.username.value in users
    requires !CheckPw(req.password.value.value, users[req.username.value].password)
    ensures Handle(route, users, req, salt) == (Json(WrongPassword(req.username.value), WRONG_PASSWORD), users)
  {
  }

  /**
   * A null password is passed to check_credentials as None, the existence-only
   * query: on every resource but Register, an unknown user posting it gets
   * Python's None (a JSON null with no message and no status), and nothing
   * changes.
   */
  lemma NullPasswordUnknownUser(route: Route, users: Store, req: Request, salt: Salt)
    requires ChargesFee(route) ==> BANK in users
    requires !route.ToRegister? && HasAll(req, Required(route))
    requires req.username.Some? && req.password == Some(None)
    requires req.username.value !in users
    ensures Handle(route, users, req, salt) == (NoReply, users)
  {
  }

  /**
   * For a registered user the same query passes, so on every resource but
   * Register a null password does exactly what the user's real password does:
   * the password check is skipped.
   */
  lemma NullPasswordAdmitted(route: Route, users: Store, req: Request, salt: Salt, password: string)
    requires ChargesFee(route) ==> BANK in users
    requires !route.ToRegister?
    requires req.username.Some? && req.password == Some(None)
    requires req.username.value in users
    requires CheckPw(password, users[req.username.value].password)
    ensures Handle(route, users, req, salt) == Handle(route, users, req.(password := Some(Some(password))), salt)
  {
    var withPassword := req.(password := Some(Some(password)));
    assert MissingList(Required(route), req) == MissingList(Required(route), withPassword) by {
      MissingListSamePresence(Required(route), req, withPassword);
    }
  }

  /**
   * Anyone who knows a customer's username can spend the customer's cash: a
   * transfer posting a null password moves amount + FEE out of the account.
   */
  lemma NullPasswordTransfer(users: Store, from: Username, to: Username, amount: int)
    requires BANK in users && from in users && to in users
    requires from != to && from != BANK
    requires amount > 0 && users[from].own >= amount + FEE
    ensures var (reply, after) := Transfer(users, Request(Some(from), Some(None), Some(to), Some(amount)));
      && reply == Json(Transferred, OK)
      && after[from].own == users[from].own - amount - FEE
  {
    TransferSucceeds(users, Request(Some(from), Some(None), Some(to), Some(amount)));
  }

  /** Add, TakeLoan and PayLoan answer a non-positive amount with 304, and nothing changes. */
  lemma NonPositiveAmountReported(route: Route, users: Store, req: Request, salt: Salt)
    requires route.ToAdd? || route.ToTakeLoan? || route.ToPayLoan?
    requires BANK in users && Admitted(users, req)
    requires req.amount.Some? && req.amount.value <= 0
    ensures Handle(route, users, req, salt) == (Json(AmountNotPositive, BAD_AMOUNT), users)
  {
    assert HasAll(req, AMOUNT_PARAMS);
  }

  /** Whatever the resource, a request that does not succeed leaves the store unchanged. */
  lemma FailureChangesNothing(route: Route, users: Store, req: Request, salt: Salt)
    requires ChargesFee(route) ==> BANK in users
    ensures var (reply, after) := Handle(route, users, req, salt);
      !Succeeded(reply) ==> after == users
  {
  }

  lemma AddPreservesSolvent(users: Store, req: Request)
    requires BANK in users
    ensures Solvent(users) ==> Solvent(Add(users, req).1)
  {
    if Admitted(users, req) && req.amount.Some? && req.amount.value > 0 {
      AddSucceeds(users, req);
    }
  }

  lemma TransferPreservesSolvent(users: Store, req: Request)
    requires BANK in users
    ensures Solvent(users) ==> Solvent(Transfer(users, req).1)
  {
    if && Admitted(users, req) && req.to.Some? && req.amount.Some?
       && req.to.value in users && req.amount.value > 0
       && users[req.username.value].own >= req.amount.value + FEE
    {
      TransferSucceeds(users, req);
    }
  }

  lemma TakeLoanPreservesSolvent(users: Store, req: Request)
    requires BANK in users
    ensures Solvent(users) ==> Solvent(TakeLoan(users, req).1)
  {
    if Admitted(users, req) && req.amount.Some? && req.amount.value > 0 {
      TakeLoanSucceeds(users, req);
    }
  }

  lemma PayLoanPreservesSolvent(users: Store, req: Request)
    requires BANK in users
    ensures Solvent(users) ==> Solvent(PayLoan(users, req).1)
  {
    if && Admitted(users, req) && req.amount.Some? && req.amount.value > 0
       && users[req.username.value].own >= Clamp(req.amount.value, users[req.username.value].debt) + FEE
    {
      PayLoanSucceeds(users, req);
    }
  }

  lemma RegisterPreservesSolvent(users: Store, req: Request, salt: Salt)
    ensures Solvent(users) ==> Solvent(Register(users, req, salt).1)
  {
    if req.username.Some? && req.password.Some? && req.password.value.Some? && req.username.value !in users {
      RegisterNewUser(users, req, salt);
    }
  }

  /**
   * Every resource keeps the ledger invariant: BANK present, and no cash or
   * debt negative. The amount check and the balance checks are what keep it.
   */
  lemma HandlePreservesSolvent(route: Route, users: Store, req: Request, salt: Salt)
    requires ChargesFee(route) ==> BANK in users
    ensures Solvent(users) ==> Solvent(Handle(route, users, req, salt).1)
  {
    if Solvent(users) {
      match route
      case ToRegister => RegisterPreservesSolvent(users, req, salt);
      case ToAdd => AddPreservesSolvent(users, req);
      case ToTransfer => TransferPreservesSolvent(users, req);
      case ToBalance =>
      case ToTakeLoan => TakeLoanPreservesSolvent(users, req);
      case ToPayLoan => PayLoanPreservesSolvent(users, req);
    }
  }

  lemma AddNetWorth(users: Store, req: Request)
    requires BANK in users
    ensures var (reply, after) := Add(users, req);
      NetWorth(after) == NetWorth(users) + (if Succeeded(reply) then req.amount.value else 0)
  {
    assert AMOUNT in AMOUNT_PARAMS && USERNAME in AMOUNT_PARAMS && PASSWORD in AMOUNT_PARAMS;
    if Admitted(users, req) && req.amount.Some? && req.amount.value > 0 {
      AddSucceeds(users, req);
      DepositEffect(users, req.username.value, req.amount.value);
    }
  }

  lemma TransferNetWorth(users: Store, req: Request)
    requires BANK in users
    ensures NetWorth(Transfer(users, req).1) == NetWorth(users)
  {
    assert USERNAME in TRANSFER_PARAMS && PASSWORD in TRANSFER_PARAMS && TO in TRANSFER_PARAMS && AMOUNT in TRANSFER_PARAMS;
    if && Admitted(users, req) && req.to.Some? && req.amount.Some?
       && req.to.value in users && req.amount.value > 0
       && users[req.username.value].own >= req.amount.value + FEE
    {
      TransferSucceeds(users, req);
    }
  }

  lemma TakeLoanNetWorth(users: Store, req: Request)
    requires BANK in users
    ensures NetWorth(TakeLoan(users, req).1) == NetWorth(users)
  {
    assert AMOUNT in AMOUNT_PARAMS && USERNAME in AMOUNT_PARAMS && PASSWORD in AMOUNT_PARAMS;
    if Admitted(users, req) && req.amount.Some? && req.amount.value > 0 {
      TakeLoanSucceeds(users, req);
    }
  }

  lemma PayLoanNetWorth(users: Store, req: Request)
    requires BANK in users
    ensures NetWorth(PayLoan(users, req).1) == NetWorth(users)
  {
    assert AMOUNT in AMOUNT_PARAMS && USERNAME in AMOUNT_PARAMS && PASSWORD in AMOUNT_PARAMS;
    if && Admitted(users, req) && req.amount.Some? && req.amount.value > 0
       && users[req.username.value].own >= Clamp(req.amount.value, users[req.username.value].debt) + FEE
    {
      PayLoanSucceeds(users, req);
    }
  }

  lemma RegisterNetWorth(users: Store, req: Request, salt: Salt)
    ensures NetWorth(Register(users, req, salt).1) == NetWorth(users)
  {
    assert USERNAME in CREDENTIAL_PARAMS && PASSWORD in CREDENTIAL_PARAMS;
    if req.username.Some? && req.password.Some? && req.password.value.Some? && req.username.value !in users {
      RegisterNewUser(users, req, salt);
    }
  }

  /**
   * Cash minus debt over the ledger changes only by deposits: fees move cash
   * to BANK, loans and repayments move cash and debt together.
   */
  lemma HandleNetWorth(route: Route, users: Store, req: Request, salt: Salt)
    requires ChargesFee(route) ==> BANK in users
    ensures var (reply, after) := Handle(route, users, req, salt);
      NetWorth(after) == NetWorth(users) + (if route.ToAdd? && Succeeded(reply) then req.amount.value else 0)
  {
    match route
    case ToRegister => RegisterNetWorth(users, req, salt);
    case ToAdd => AddNetWorth(users, req);
    case ToTransfer => TransferNetWorth(users, req);
    case ToBalance =>
    case ToTakeLoan => TakeLoanNetWorth(users, req);
    case ToPayLoan => PayLoanNetWorth(users, req);
  }

  // ---------------------------------------------------------------------------
  // A session
  // ---------------------------------------------------------------------------

  /**
   * alice signs up, deposits 100 (keeping 99), bob signs up, alice sends bob 50
   * (keeping 48), and alice's balance then reads cash 48, debt 0.
   */
  lemma AliceAndBob(bank: Account)
    ensures var s0 := map[BANK := bank];
      var alice := Request(Some("alice"), Some(Some("pw1")), None, None);
      var bob := Request(Some("bob"), Some(Some("pw2")), None, None);
      var (r1, s1) := Register(s0, alice, 1);
      var (r2, s2) := Add(s1, alice.(amount := Some(100)));
      var (r3, s3) := Register(s2, bob, 2);
      var (r4, s4) := Transfer(s3, alice.(to := Some("bob"), amount := Some(50)));
      var (r5, s5) := Balance(s4, alice);
      && r1 == r3 == Json(SignedUp, OK)
      && r2 == Json(Added, OK) && s2["alice"].own == 99
      && r4 == Json(Transferred, OK) && s4["alice"].own == 48 && s4["bob"].own == 50
      && s4[BANK].own == bank.own + 2 * FEE
      && r5 == Json(BalanceIs(48, 0), OK)
  {
    var s0 := map[BANK := bank];
    var alice := Request(Some("alice"), Some(Some("pw1")), None, None);
    var bob := Request(Some("bob"), Some(Some("pw2")), None, None);
    RegisterNewUser(s0, alice, 1);
    var s1 := Register(s0, alice, 1).1;
    AddSucceeds(s1, alice.(amount := Some(100)));
    var s2 := Add(s1, alice.(amount := Some(100))).1;
    RegisterNewUser(s2, bob, 2);
    var s3 := Register(s2, bob, 2).1;
    TransferSucceeds(s3, alice.(to := Some("bob"), amount := Some(50)));
    var s4 := Transfer(s3, alice.(to := Some("bob"), amount := Some(50))).1;
    BalanceReports(s4, alice);
  }
}
