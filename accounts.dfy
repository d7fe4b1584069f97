/**
 * The per-username record store of the banking service (the Mongo collection
 * `Users`), abstracted as a map from username to account record, together with
 * the single-field writes the handlers apply to it and the ledger totals used to
 * state conservation.
 */
module Accounts {

  datatype Option<T> = None | Some(value: T)

  type Username = string

  /** The randomness bcrypt.gensalt() draws; a parameter of every registration. */
  type Salt = nat

  /** The distinguished account that collects every fee. */
  const BANK: Username := "BANK"

  /** The fixed charge of every cash-affecting operation. */
  const FEE: int := 1

  /**
   * A stored bcrypt hash. The model keeps only the property that checking
   * relies on: the hash of a password under a salt determines the password.
   */
  datatype PwHash = Bcrypt(salt: Salt, digest: string)

  function HashPw(password: string, salt: Salt): (h: PwHash)
    ensures h.salt == salt
  {
    Bcrypt(salt, password)
  }

  /** bcrypt.checkpw: re-hash the candidate with the stored salt and compare. */
  predicate CheckPw(password: string, stored: PwHash)
  {
    HashPw(password, stored.salt) == stored
  }

  lemma CheckPwOfHash(candidate: string, password: string, salt: Salt)
    ensures CheckPw(candidate, HashPw(password, salt)) <==> candidate == password
  {
  }

  /** One record of the collection: fields Password, Own and Debt. */
  datatype Account = Account(password: PwHash, own: int, debt: int)

  type Store = map<Username, Account>

  /** user_cash */
  function UserCash(users: Store, username: Username): int
    requires username in users
  {
    users[username].own
  }

  /** user_debt */
  function UserDebt(users: Store, username: Username): int
    requires username in users
  {
    users[username].debt
  }

  /** The store after update_one(..., {"$set": {Own: balance}}); no record matches an unknown name. */
  function WithOwn(users: Store, username: Username, balance: int): (r: Store)
    ensures r.Keys == users.Keys
  {
    if username in users then users[username := users[username].(own := balance)] else users
  }

  lemma WithOwnAt(users: Store, username: Username, balance: int, k: Username)
    requires k in users
    ensures WithOwn(users, username, balance)[k] == if k == username then users[k].(own := balance) else users[k]
  {
  }

  /** The store after update_one(..., {"$set": {Debt: balance}}). */
  function WithDebt(users: Store, username: Username, balance: int): (r: Store)
    ensures r.Keys == users.Keys
  {
    if username in users then users[username := users[username].(debt := balance)] else users
  }

  lemma WithDebtAt(users: Store, username: Username, balance: int, k: Username)
    requires k in users
    ensures WithDebt(users, username, balance)[k] == if k == username then users[k].(debt := balance) else users[k]
  {
  }

  /** take_bank_fee: read BANK's cash, then write it back increased by the fee. */
  function WithBankFee(users: Store, fee: int): (r: Store)
    requires BANK in users
    ensures r.Keys == users.Keys
  {
    var bankCash := UserCash(users, BANK);
    WithOwn(users, BANK, bankCash + fee)
  }

  /** The ledger invariant: BANK is provisioned and no balance is negative. */
  ghost predicate Solvent(users: Store)
  {
    && BANK in users
    && forall k :: k in users ==> users[k].own >= 0 && users[k].debt >= 0
  }

  /** A numeric column of the collection. */
  datatype Column = Own | Debt

  function Field(a: Account, c: Column): int
  {
    match c
    case Own => a.own
    case Debt => a.debt
  }

  /** The sum of column `c` over the records named in `keys`. */
  ghost function SumOver(users: Store, keys: set<Username>, c: Column): int
    requires keys <= users.Keys
    decreases keys
  {
    if keys == {} then 0
    else
      var k :| k in keys;
      Field(users[k], c) + SumOver(users, keys - {k}, c)
  }

  /** The sum of column `c` over the whole collection. */
  ghost function Total(users: Store, c: Column): int
  {
    SumOver(users, users.Keys, c)
  }

  /** Any record may be taken out of a sum first, whichever one the definition chose. */
  lemma {:induction false} SumOverRemove(users: Store, keys: set<Username>, c: Column, k: Username)
    requires keys <= users.Keys && k in keys
    ensures SumOver(users, keys, c) == Field(users[k], c) + SumOver(users, keys - {k}, c)
    decreases keys
  {
    var j :| j in keys && SumOver(users, keys, c) == Field(users[j], c) + SumOver(users, keys - {j}, c);
    if j != k {
      SumOverRemove(users, keys - {j}, c, k);
      SumOverRemove(users, keys - {k}, c, j);
      assert keys - {j} - {k} == keys - {k} - {j};
    }
  }

  /** A sum depends only on the summed column of the summed records. */
  lemma {:induction false} SumOverFrame(a: Store, b: Store, keys: set<Username>, c: Column)
    requires keys <= a.Keys && keys <= b.Keys
    requires forall k :: k in keys ==> Field(a[k], c) == Field(b[k], c)
    ensures SumOver(a, keys, c) == SumOver(b, keys, c)
    decreases keys
  {
    if keys != {} {
      var k :| k in keys;
      SumOverRemove(a, keys, c, k);
      SumOverRemove(b, keys, c, k);
      SumOverFrame(a, b, keys - {k}, c);
    }
  }

  /** Replacing one record changes a total by exactly that record's difference. */
  lemma TotalReplace(users: Store, k: Username, acc: Account, c: Column)
    requires k in users
    ensures Total(users[k := acc], c) == Total(users, c) - Field(users[k], c) + Field(acc, c)
  {
    var m := users[k := acc];
    assert m.Keys == users.Keys;
    SumOverRemove(m, m.Keys, c, k);
    SumOverRemove(users, users.Keys, c, k);
    SumOverFrame(m, users, users.Keys - {k}, c);
  }

  /** Inserting a fresh record adds exactly that record to a total. */
  lemma TotalInsert(users: Store, k: Username, acc: Account, c: Column)
    requires k !in users
    ensures Total(users[k := acc], c) == Total(users, c) + Field(acc, c)
  {
    var m := users[k := acc];
    assert m.Keys == users.Keys + {k};
    SumOverRemove(m, m.Keys, c, k);
    assert m.Keys - {k} == users.Keys;
    SumOverFrame(m, users, users.Keys, c);
  }

  /** Setting a user's cash moves the cash total by the change and leaves the debt total alone. */
  lemma WithOwnTotals(users: Store, username: Username, balance: int)
    requires username in users
    ensures Total(WithOwn(users, username, balance), Own) == Total(users, Own) - users[username].own + balance
    ensures Total(WithOwn(users, username, balance), Debt) == Total(users, Debt)
  {
    TotalReplace(users, username, users[username].(own := balance), Own);
    TotalReplace(users, username, users[username].(own := balance), Debt);
  }

  /** Setting a user's debt moves the debt total by the change and leaves the cash total alone. */
  lemma WithDebtTotals(users: Store, username: Username, balance: int)
    requires username in users
    ensures Total(WithDebt(users, username, balance), Debt) == Total(users, Debt) - users[username].debt + balance
    ensures Total(WithDebt(users, username, balance), Own) == Total(users, Own)
  {
    TotalReplace(users, username, users[username].(debt := balance), Own);
    TotalReplace(users, username, users[username].(debt := balance), Debt);
  }

  /** A bank fee adds exactly the fee to the cash total. */
  lemma WithBankFeeTotals(users: Store, fee: int)
    requires BANK in users
    ensures Total(WithBankFee(users, fee), Own) == Total(users, Own) + fee
    ensures Total(WithBankFee(users, fee), Debt) == Total(users, Debt)
  {
    WithOwnTotals(users, BANK, users[BANK].own + fee);
  }
}
