/**
 * The Python service as it runs: one shared collection of user records,
 * updated in place by the request handlers through single-field writes. Each
 * handler method performs the service's reads and writes in the service's order
 * and is proved to produce exactly the reply and the store that the matching
 * function of module Handlers describes.
 */
module App {
  import opened Accounts
  import opened Checks
  import Handlers
  import Properties

  class Users {
    /** The collection, keyed by username. */
    var records: Store

    constructor (initial: Store)
      ensures records == initial
    {
      records := initial;
    }

    /** insert_one */
    method InsertOne(username: Username, account: Account)
      requires username !in records
      modifies this
      ensures records == old(records)[username := account]
    {
      records := records[username := account];
    }

    /** update_balance */
    method UpdateBalance(username: Username, balance: int)
      modifies this
      ensures records == WithOwn(old(records), username, balance)
    {
      if username in records {
        records := records[username := records[username].(own := balance)];
      }
    }

    /** update_debt */
    method UpdateDebt(username: Username, balance: int)
      modifies this
      ensures records == WithDebt(old(records), username, balance)
    {
      if username in records {
        records := records[username := records[username].(debt := balance)];
      }
    }

    /** take_bank_fee */
    method TakeBankFee(fee: int)
      requires BANK in records
      modifies this
      ensures records == WithBankFee(old(records), fee)
    {
      var bankCash := UserCash(records, BANK);
      UpdateBalance(BANK, bankCash + fee);
    }

    /** Register.post */
    method Register(req: Request, salt: Salt) returns (reply: Reply)
      modifies this
      ensures (reply, records) == Handlers.Register(old(records), req, salt)
      ensures old(Solvent(records)) ==> Solvent(records)
    {
      Properties.RegisterPreservesSolvent(records, req, salt);
      var parametersOk, r := CheckParameters(Handlers.CREDENTIAL_PARAMS, req);
      if !parametersOk {
        return r;
      }
      assert USERNAME in Handlers.CREDENTIAL_PARAMS && PASSWORD in Handlers.CREDENTIAL_PARAMS;
      var username := req.username.value;
      var (userExists, existsReply) := CheckCredentials(records, username, None);
      if userExists {
        return existsReply;
      }
      var password := req.password.value;
      if password.None? {
        return Fault;
      }
      var hashed := HashPw(password.value, salt);
      InsertOne(username, Account(hashed, 0, 0));
      return Json(SignedUp, OK);
    }

    /** Add.post (deposit) */
    method Add(req: Request) returns (reply: Reply)
      requires BANK in records
      modifies this
      ensures (reply, records) == Handlers.Add(old(records), req)
      ensures old(Solvent(records)) ==> Solvent(records)
    {
      var parametersOk, r := CheckParameters(Handlers.AMOUNT_PARAMS, req);
      if !parametersOk {
        return r;
      }
      assert USERNAME in Handlers.AMOUNT_PARAMS && PASSWORD in Handlers.AMOUNT_PARAMS;
      var username, password := req.username.value, req.password.value;
      var (credentialsOk, credentialsReply) := CheckCredentials(records, username, password);
      if !credentialsOk {
        return credentialsReply;
      }
      var amount := req.amount.value;
      var (amountOk, amountReply) := ValidateAmount(amount);
      if !amountOk {
        return amountReply;
      }
      var cash := UserCash(records, username);
      UpdateBalance(username, cash + amount - FEE);
      TakeBankFee(FEE);
      Properties.AddPreservesSolvent(old(records), req);
      return Json(Added, OK);
    }

    /** Transfer.post */
    method Transfer(req: Request) returns (reply: Reply)
      requires BANK in records
      modifies this
      ensures (reply, records) == Handlers.Transfer(old(records), req)
      ensures old(Solvent(records)) ==> Solvent(records)
    {
      var parametersOk, r := CheckParameters(Handlers.TRANSFER_PARAMS, req);
      if !parametersOk {
        return r;
      }
      assert USERNAME in Handlers.TRANSFER_PARAMS && PASSWORD in Handlers.TRANSFER_PARAMS && TO in Handlers.TRANSFER_PARAMS;
      var username, password := req.username.value, req.password.value;
      var (credentialsOk, credentialsReply) := CheckCredentials(records, username, password);
      if !credentialsOk {
        return credentialsReply;
      }
      var transferTo := req.to.value;
      var (userExists, existsReply) := CheckCredentials(records, transferTo, None);
      if !userExists {
        return existsReply;
      }
      var amount := req.amount.value;
      var (amountOk, amountReply) := ValidateAmount(amount);
      if !amountOk {
        return amountReply;
      }
      var (balanceOk, balanceReply) := ValidateBalance(records, username, amount + FEE);
      if !balanceOk {
        return balanceReply;
      }
      var cashFrom := UserCash(records, username);
      UpdateBalance(username, cashFrom - amount - FEE);
      var cashTo := UserCash(records, transferTo);
      UpdateBalance(transferTo, cashTo + amount);
      TakeBankFee(FEE);
      Properties.TransferPreservesSolvent(old(records), req);
      return Json(Transferred, OK);
    }

    /** Balance.post: reads the collection and never writes it. */
    method Balance(req: Request) returns (reply: Reply)
      ensures reply == Handlers.Balance(records, req).0
    {
      var parametersOk, r := CheckParameters(Handlers.CREDENTIAL_PARAMS, req);
      if !parametersOk {
        return r;
      }
      assert USERNAME in Handlers.CREDENTIAL_PARAMS && PASSWORD in Handlers.CREDENTIAL_PARAMS;
      var username, password := req.username.value, req.password.value;
      var (credentialsOk, credentialsReply) := CheckCredentials(records, username, password);
      if !credentialsOk {
        return credentialsReply;
      }
      var userBalance := records[username];
      return Json(BalanceIs(userBalance.own, userBalance.debt), OK);
    }

    /** TakeLoan.post */
    method TakeLoan(req: Request) returns (reply: Reply)
      requires BANK in records
      modifies this
      ensures (reply, records) == Handlers.TakeLoan(old(records), req)
      ensures old(Solvent(records)) ==> Solvent(records)
    {
      var parametersOk, r := CheckParameters(Handlers.AMOUNT_PARAMS, req);
      if !parametersOk {
        return r;
      }
      assert USERNAME in Handlers.AMOUNT_PARAMS && PASSWORD in Handlers.AMOUNT_PARAMS;
      var username, password := req.username.value, req.password.value;
      var (credentialsOk, credentialsReply) := CheckCredentials(records, username, password);
      if !credentialsOk {
        return credentialsReply;
      }
      var amount := req.amount.value;
      var (amountOk, amountReply) := ValidateAmount(amount);
      if !amountOk {
        return amountReply;
      }
      ghost var before := records;
      var cash := UserCash(records, username);
      var debt := UserDebt(records, username);
      UpdateBalance(username, cash + amount);
      UpdateDebt(username, debt + amount + FEE);
      TakeBankFee(FEE);
      assert records == Handlers.Borrow(before, username, amount);
      assert Handlers.TakeLoan(before, req) == (Json(LoanAdded, OK), records);
      Properties.TakeLoanPreservesSolvent(before, req);
      return Json(LoanAdded, OK);
    }

    /** PayLoan.post */
    method PayLoan(req: Request) returns (reply: Reply)
      requires BANK in records
      modifies this
      ensures (reply, records) == Handlers.PayLoan(old(records), req)
      ensures old(Solvent(records)) ==> Solvent(records)
    {
      var parametersOk, r := CheckParameters(Handlers.AMOUNT_PARAMS, req);
      if !parametersOk {
        return r;
      }
      assert USERNAME in Handlers.AMOUNT_PARAMS && PASSWORD in Handlers.AMOUNT_PARAMS;
      var username, password := req.username.value, req.password.value;
      var (credentialsOk, credentialsReply) := CheckCredentials(records, username, password);
      if !credentialsOk {
        return credentialsReply;
      }
      var amount := req.amount.value;
      var (amountOk, amountReply) := ValidateAmount(amount);
      if !amountOk {
        return amountReply;
      }
      var cash := UserCash(records, username);
      var debt := UserDebt(records, username);
      if amount > debt {
        amount := debt;
      }
      assert amount == Handlers.Clamp(req.amount.value, debt);
      var (balanceOk, balanceReply) := ValidateBalance(records, username, amount + FEE);
      if !balanceOk {
        return balanceReply;
      }
      ghost var before := records;
      UpdateBalance(username, cash - amount - FEE);
      UpdateDebt(username, debt - amount);
      TakeBankFee(FEE);
      assert records == Handlers.Repay(before, username, cash, debt, amount);
      assert Handlers.PayLoan(before, req) == (Json(LoanPaid, OK), records);
      Properties.PayLoanPreservesSolvent(before, req);
      return Json(LoanPaid, OK);
    }
  }
}
