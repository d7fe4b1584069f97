/**
 * The request payload, the replies a handler renders, and the read-only checks
 * every handler runs before it touches the store: parameter presence,
 * credentials, amount and balance.
 */
module Checks {
  import opened Accounts

  /** Keys of the posted JSON document. */
  const USERNAME: string := "username"
  const PASSWORD: string := "password"
  const AMOUNT: string := "amount"
  const TO: string := "to"

  /** Application-level status codes carried in every reply. */
  const OK: int := 200
  const USER_EXISTS: int := 301
  const WRONG_PASSWORD: int := 302
  const BAD_AMOUNT: int := 304
  const MISSING: int := 305

  /**
   * A posted document: each key is either absent (None) or carries its value.
   * A posted password may itself be JSON null, which the handlers read as
   * Python's None: `Some(None)` is a present key holding null.
   */
  datatype Request = Request(
    username: Option<string>,
    password: Option<Option<string>>,
    to: Option<string>,
    amount: Option<int>)

  /** What a reply's message reports; its wording is left to the rendering. */
  datatype Message =
    | ParametersMissing(names: string)
    | NoSuchUser(username: Username)
    | AlreadyExists(username: Username)
    | WrongPassword(username: Username)
    | AmountNotPositive
    | BalanceBelow(required: int)
    | SignedUp
    | Added
    | Transferred
    | BalanceIs(own: int, debt: int)
    | LoanAdded
    | LoanPaid

  /**
   * generate_return_json(message, status); Python's None, which reaches the
   * client as a JSON null with no message and no status code; or an exception
   * the handler does not catch, which the web framework answers with HTTP 500.
   */
  datatype Reply = Json(message: Message, status: int) | NoReply | Fault

  predicate Succeeded(r: Reply)
  {
    r.Json? && r.status == OK
  }

  /** `name in posted_data` */
  predicate Present(req: Request, name: string)
  {
    if name == USERNAME then req.username.Some?
    else if name == PASSWORD then req.password.Some?
    else if name == TO then req.to.Some?
    else if name == AMOUNT then req.amount.Some?
    else false
  }

  /** The piece check_parameters appends for one missing key: the quoted key and a comma. */
  function Quoted(name: string): (s: string)
    ensures |s| == |name| + 3
  {
    "'" + name + "',"
  }

  /** The accumulated list of missing keys, in the order they are required. */
  function MissingList(required: seq<string>, req: Request): string
    decreases |required|
  {
    if required == [] then ""
    else
      var last := required[|required| - 1];
      MissingList(required[..|required| - 1], req) + (if Present(req, last) then "" else Quoted(last))
  }

  lemma {:induction false} MissingListEmpty(required: seq<string>, req: Request)
    ensures MissingList(required, req) == "" <==> forall c :: c in required ==> Present(req, c)
    decreases |required|
  {
    if required != [] {
      var init, last := required[..|required| - 1], required[|required| - 1];
      MissingListEmpty(init, req);
      assert required == init + [last];
      var piece := if Present(req, last) then "" else Quoted(last);
      assert |MissingList(required, req)| == |MissingList(init, req)| + |piece|;
      assert (forall c :: c in required ==> Present(req, c))
         <==> (forall c :: c in init ==> Present(req, c)) && Present(req, last);
    }
  }

  /** The missing-key list depends only on which keys are posted. */
  lemma {:induction false} MissingListSamePresence(required: seq<string>, a: Request, b: Request)
    requires forall c :: c in required ==> (Present(a, c) <==> Present(b, c))
    ensures MissingList(required, a) == MissingList(required, b)
    decreases |required|
  {
    if required != [] {
      MissingListSamePresence(required[..|required| - 1], a, b);
    }
  }

  /**
   * The verdict of check_parameters: (True, None) when every required key is
   * posted, otherwise (False, a 305 reply listing the missing keys).
   */
  function Parameters(required: seq<string>, req: Request): (r: (bool, Reply))
    ensures r.0 <==> forall c :: c in required ==> Present(req, c)
    ensures r.0 <==> r.1.NoReply?
    ensures !r.0 ==> r.1 == Json(ParametersMissing(MissingList(required, req)), MISSING)
  {
    MissingListEmpty(required, req);
    var missing := MissingList(required, req);
    if |missing| > 0 then (false, Json(ParametersMissing(missing), MISSING)) else (true, NoReply)
  }

  /** check_parameters: accumulate the missing keys in one pass over the required ones. */
  method CheckParameters(required: seq<string>, req: Request) returns (ok: bool, reply: Reply)
    ensures (ok, reply) == Parameters(required, req)
  {
    var missing := "";
    var i := 0;
    while i < |required|
      invariant 0 <= i <= |required|
      invariant missing == MissingList(required[..i], req)
    {
      var c := required[i];
      assert required[..i + 1][..i] == required[..i];
      if !Present(req, c) {
        missing := missing + Quoted(c);
      }
      i := i + 1;
    }
    assert required[..|required|] == required;
    if |missing| > 0 {
      return false, Json(ParametersMissing(missing), MISSING);
    }
    return true, NoReply;
  }

  /**
   * check_credentials. Without a password (None) it asks whether the user
   * exists and passes exactly when it does (with a 301 reply that registration
   * returns). With a password it passes exactly when the user exists and the
   * password matches the stored hash.
   */
  function CheckCredentials(users: Store, username: Username, password: Option<string>): (r: (bool, Reply))
    ensures r.0 <==> username in users && (password.Some? ==> CheckPw(password.value, users[username].password))
    ensures r.1.NoReply? <==> (password.None? && username !in users) || (password.Some? && r.0)
    ensures username !in users && password.Some? ==> r.1 == Json(NoSuchUser(username), MISSING)
    ensures username in users && password.None? ==> r.1 == Json(AlreadyExists(username), USER_EXISTS)
    ensures username in users && password.Some? && !r.0 ==> r.1 == Json(WrongPassword(username), WRONG_PASSWORD)
    ensures r.1.Json? ==> r.1.status in {USER_EXISTS, WRONG_PASSWORD, MISSING}
  {
    if username !in users then
      if password.None? then (false, NoReply)
      else (false, Json(NoSuchUser(username), MISSING))
    else if password.None? then
      (true, Json(AlreadyExists(username), USER_EXISTS))
    else if !CheckPw(password.value, users[username].password) then
      (false, Json(WrongPassword(username), WRONG_PASSWORD))
    else
      (true, NoReply)
  }

  /** validate_amount: only strictly positive amounts pass. */
  function ValidateAmount(amount: int): (r: (bool, Reply))
    ensures r.0 <==> amount > 0
    ensures r.0 <==> r.1.NoReply?
    ensures !r.0 ==> r.1 == Json(AmountNotPositive, BAD_AMOUNT)
  {
    if amount <= 0 then (false, Json(AmountNotPositive, BAD_AMOUNT)) else (true, NoReply)
  }

  /** validate_balance: passes exactly when the user's cash covers `amount`. */
  function ValidateBalance(users: Store, username: Username, amount: int): (r: (bool, Reply))
    requires username in users
    ensures r.0 <==> users[username].own >= amount
    ensures r.0 <==> r.1.NoReply?
    ensures !r.0 ==> r.1 == Json(BalanceBelow(amount), BAD_AMOUNT)
  {
    var cash := UserCash(users, username);
    if cash < amount then (false, Json(BalanceBelow(amount), BAD_AMOUNT)) else (true, NoReply)
  }
}
