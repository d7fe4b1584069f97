/**
 * What each request handler's post() does, as a function from the store before
 * the request to the reply and the store after it. Each handler runs its checks
 * in the Python service's order and returns the first failing check's reply with
 * the store untouched; the store effects are written as the service's sequence of
 * single-field reads and writes, each write against the store as the previous
 * writes left it.
 */
module Handlers {
  import opened Accounts
  import opened Checks

  /** The reply a request produces and the store it leaves behind. */
  type Outcome = (Reply, Store)

  const CREDENTIAL_PARAMS: seq<string> := [USERNAME, PASSWORD]
  const AMOUNT_PARAMS: seq<string> := [USERNAME, PASSWORD, AMOUNT]
  const TRANSFER_PARAMS: seq<string> := [USERNAME, PASSWORD, TO, AMOUNT]

  /** Register: insert a fresh record with zero cash and debt. */
  function Register(users: Store, req: Request, salt: Salt): Outcome
  {
    var (parametersOk, r0) := Parameters(CREDENTIAL_PARAMS, req);
    if !parametersOk then (r0, users)
    else
      assert USERNAME in CREDENTIAL_PARAMS && PASSWORD in CREDENTIAL_PARAMS;
      var username := req.username.value;
      var (userExists, r1) := CheckCredentials(users, username, None);
      if userExists then (r1, users)
      else
        var password := req.password.value;
        // A null password has no encode(): hashing it raises before the insert.
        if password.None? then (Fault, users)
        else
          var hashed := HashPw(password.value, salt);
          (Json(SignedUp, OK), users[username := Account(hashed, 0, 0)])
  }

  /** The store effect of a deposit: credit amount - FEE to the user, then FEE to BANK. */
  function Deposit(users: Store, username: Username, amount: int): Store
    requires username in users && BANK in users
  {
    var cash := UserCash(users, username);
    var s1 := WithOwn(users, username, cash + amount - FEE);
    WithBankFee(s1, FEE)
  }

  /** Add (deposit). */
  function Add(users: Store, req: Request): Outcome
    requires BANK in users
  {
    var (parametersOk, r0) := Parameters(AMOUNT_PARAMS, req);
    if !parametersOk then (r0, users)
    else
      assert USERNAME in AMOUNT_PARAMS && PASSWORD in AMOUNT_PARAMS;
      var username, password := req.username.value, req.password.value;
      var (credentialsOk, r1) := CheckCredentials(users, username, password);
      if !credentialsOk then (r1, users)
      else
        var amount := req.amount.value;
        var (amountOk, r2) := ValidateAmount(amount);
        if !amountOk then (r2, users)
        else (Json(Added, OK), Deposit(users, username, amount))
  }

  /**
   * The store effect of a transfer: debit the sender, then read the recipient
   * afresh and credit it, then credit BANK.
   */
  function MoveCash(users: Store, from: Username, to: Username, amount: int): Store
    requires from in users && to in users && BANK in users
  {
    var cashFrom := UserCash(users, from);
    var s1 := WithOwn(users, from, cashFrom - amount - FEE);
    var cashTo := UserCash(s1, to);
    var s2 := WithOwn(s1, to, cashTo + amount);
    WithBankFee(s2, FEE)
  }

  /** Transfer: sender credentials, recipient existence, amount, then balance. */
  function Transfer(users: Store, req: Request): Outcome
    requires BANK in users
  {
    var (parametersOk, r0) := Parameters(TRANSFER_PARAMS, req);
    if !parametersOk then (r0, users)
    else
      assert USERNAME in TRANSFER_PARAMS && PASSWORD in TRANSFER_PARAMS && TO in TRANSFER_PARAMS;
      var username, password := req.username.value, req.password.value;
      var (credentialsOk, r1) := CheckCredentials(users, username, password);
      if !credentialsOk then (r1, users)
      else
        var to := req.to.value;
        var (userExists, r2) := CheckCredentials(users, to, None);
        if !userExists then (r2, users)
        else
          var amount := req.amount.value;
          var (amountOk, r3) := ValidateAmount(amount);
          if !amountOk then (r3, users)
          else
            var (balanceOk, r4) := ValidateBalance(users, username, amount + FEE);
            if !balanceOk then (r4, users)
            else (Json(Transferred, OK), MoveCash(users, username, to, amount))
  }

  /** Balance: report the user's cash and debt. */
  function Balance(users: Store, req: Request): Outcome
  {
    var (parametersOk, r0) := Parameters(CREDENTIAL_PARAMS, req);
    if !parametersOk then (r0, users)
    else
      assert USERNAME in CREDENTIAL_PARAMS && PASSWORD in CREDENTIAL_PARAMS;
      var username, password := req.username.value, req.password.value;
      var (credentialsOk, r1) := CheckCredentials(users, username, password);
      if !credentialsOk then (r1, users)
      else
        var record := users[username];
        (Json(BalanceIs(record.own, record.debt), OK), users)
  }

  /**
   * The store effect of a loan: with cash and debt read first, set cash to
   * cash + amount and debt to debt + amount + FEE, then credit BANK.
   */
  function Borrow(users: Store, username: Username, amount: int): Store
    requires username in users && BANK in users
  {
    var cash := UserCash(users, username);
    var debt := UserDebt(users, username);
    var s1 := WithOwn(users, username, cash + amount);
    var s2 := WithDebt(s1, username, debt + amount + FEE);
    WithBankFee(s2, FEE)
  }

  /** TakeLoan. */
  function TakeLoan(users: Store, req: Request): Outcome
    requires BANK in users
  {
    var (parametersOk, r0) := Parameters(AMOUNT_PARAMS, req);
    if !parametersOk then (r0, users)
    else
      assert USERNAME in AMOUNT_PARAMS && PASSWORD in AMOUNT_PARAMS;
      var username, password := req.username.value, req.password.value;
      var (credentialsOk, r1) := CheckCredentials(users, username, password);
      if !credentialsOk then (r1, users)
      else
        var amount := req.amount.value;
        var (amountOk, r2) := ValidateAmount(amount);
        if !amountOk then (r2, users)
        else (Json(LoanAdded, OK), Borrow(users, username, amount))
  }

  /** The repayment a PayLoan request makes: the amount, capped at the debt. */
  function Clamp(amount: int, debt: int): (eff: int)
    ensures eff <= amount && eff <= debt
    ensures eff == amount || eff == debt
  {
    if amount > debt then debt else amount
  }

  /**
   * The store effect of a repayment of `paid` (already capped), with cash and
   * debt as read before the balance check: set cash to cash - paid - FEE and
   * debt to debt - paid, then credit BANK.
   */
  function Repay(users: Store, username: Username, cash: int, debt: int, paid: int): Store
    requires username in users && BANK in users
  {
    var s1 := WithOwn(users, username, cash - paid - FEE);
    var s2 := WithDebt(s1, username, debt - paid);
    WithBankFee(s2, FEE)
  }

  /** PayLoan: the balance check is made against the capped amount plus FEE. */
  function PayLoan(users: Store, req: Request): Outcome
    requires BANK in users
  {
    var (parametersOk, r0) := Parameters(AMOUNT_PARAMS, req);
    if !parametersOk then (r0, users)
    else
      assert USERNAME in AMOUNT_PARAMS && PASSWORD in AMOUNT_PARAMS;
      var username, password := req.username.value, req.password.value;
      var (credentialsOk, r1) := CheckCredentials(users, username, password);
      if !credentialsOk then (r1, users)
      else
        var amount := req.amount.value;
        var (amountOk, r2) := ValidateAmount(amount);
        if !amountOk then (r2, users)
        else
          var cash := UserCash(users, username);
          var debt := UserDebt(users, username);
          var paid := Clamp(amount, debt);
          var (balanceOk, r3) := ValidateBalance(users, username, paid + FEE);
          if !balanceOk then (r3, users)
          else (Json(LoanPaid, OK), Repay(users, username, cash, debt, paid))
  }

  /** The six resources of the service. */
  datatype Route = ToRegister | ToAdd | ToTransfer | ToBalance | ToTakeLoan | ToPayLoan

  /** The keys each resource requires, in the order it checks them. */
  function Required(route: Route): seq<string>
  {
    match route
    case ToRegister => CREDENTIAL_PARAMS
    case ToBalance => CREDENTIAL_PARAMS
    case ToTransfer => TRANSFER_PARAMS
    case _ => AMOUNT_PARAMS
  }

  /** Resources whose success path credits a fee to BANK (and reads BANK's record). */
  predicate ChargesFee(route: Route)
  {
    !route.ToRegister? && !route.ToBalance?
  }

  /** Dispatch a posted request to its resource. */
  function Handle(route: Route, users: Store, req: Request, salt: Salt): Outcome
    requires ChargesFee(route) ==> BANK in users
  {
    match route
    case ToRegister => Register(users, req, salt)
    case ToAdd => Add(users, req)
    case ToTransfer => Transfer(users, req)
    case ToBalance => Balance(users, req)
    case ToTakeLoan => TakeLoan(users, req)
    case ToPayLoan => PayLoan(users, req)
  }
}
