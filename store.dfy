/**
 * The account store: the `portfolios` table, keyed by email, with whole-row
 * replace, a lookup gated by the stored password, an existence check and a
 * delete. The table is a map from email to row; SQL and the database file are
 * not modelled.
 */
module Store {
  import opened Wrappers
  import opened Ledger
  import opened Codec
  import opened Stocks

  /** One row of the table; the holdings column holds the decoded JSON mapping. */
  datatype Record = Record(email: string, name: string, password: string, balance: real, stocksOwned: Stored)

  /** What a successful load returns: the arguments for a new `User`. */
  datatype Profile = Profile(name: string, email: string, password: string, balance: real, stocksOwned: Holdings)

  type Table = map<string, Record>

  /** The row `save_user_data` writes for a user. */
  function RecordOf(name: string, email: string, password: string, balance: real, holdings: Holdings): Record
  {
    Record(email, name, password, balance, Encode(holdings))
  }

  /** `load_user_data`: the stored account, only when a row exists and its password is exactly `password`. */
  function Lookup(t: Table, email: string, password: string): (r: Option<Profile>)
    ensures r.Some? <==> email in t && t[email].password == password
    ensures r.Some? ==> r.value.password == password && r.value.balance == t[email].balance
    ensures r.Some? ==> r.value.stocksOwned == Decoded(t[email].stocksOwned)
    ensures r.Some? ==> r.value.name == t[email].name && r.value.email == t[email].email
  {
    if email in t && t[email].password == password then
      var row := t[email];
      Some(Profile(row.name, row.email, row.password, row.balance, Decoded(row.stocksOwned)))
    else
      None
  }

  /** After saving an account, loading it with its password gives back exactly what was saved. */
  lemma SaveThenLoad(t: Table, name: string, email: string, password: string, balance: real, holdings: Holdings)
    requires Canonical(holdings)
    ensures Lookup(t[email := RecordOf(name, email, password, balance, holdings)], email, password)
            == Some(Profile(name, email, password, balance, holdings))
  {
    RoundTrip(holdings);
  }

  /** An unknown email and a wrong password give the same answer. */
  lemma WrongPasswordLikeUnknownEmail(t: Table, email: string, password: string, other: string)
    requires email in t && t[email].password != password && other !in t
    ensures Lookup(t, email, password) == Lookup(t, other, password) == None
  {
  }

  /** The persistent table of accounts. */
  class AccountStore {
    var records: Table

    /** Every row is stored under its own email (the primary key). */
    ghost predicate Valid()
      reads this
    {
      forall e :: e in records ==> records[e].email == e
    }

    /**
     * `create_table`: opens the table, creating it empty on a first run and
     * keeping the rows of an existing one. `existing` is the table found on
     * disk; its primary key is the email of each row.
     */
    constructor (existing: Table)
      requires forall e :: e in existing ==> existing[e].email == e
      ensures Valid() && records == existing
    {
      records := existing;
    }

    /** `save_user_data`: REPLACE the user's row. */
    method SaveUser(user: User)
      requires Valid()
      modifies this
      ensures Valid()
      ensures records == old(records)[user.email :=
        RecordOf(user.name, user.email, user.password, user.balance, user.stocksOwned)]
    {
      var stocksData := Encode(user.stocksOwned);
      records := records[user.email := Record(user.email, user.name, user.password, user.balance, stocksData)];
    }

    /** `load_user_data`: the row for `email` if its password matches, with the holdings decoded. */
    method LoadUser(email: string, password: string) returns (r: Option<Profile>)
      requires Valid()
      ensures r.Some? <==> email in records && records[email].password == password
      ensures r.Some? ==> r.value.email == email
      ensures r == Lookup(records, email, password)
    {
      if email in records && records[email].password == password {
        var row := records[email];
        var stocksOwned := DecodeHoldings(row.stocksOwned);
        r := Some(Profile(row.name, row.email, row.password, row.balance, stocksOwned));
      } else {
        r := None;
      }
    }

    /** `user_exists`. */
    method UserExists(email: string) returns (b: bool)
      ensures b <==> email in records
    {
      b := email in records;
    }

    /** `delete_user`: remove the row if there is one; deleting an absent email changes nothing. */
    method DeleteUser(email: string)
      requires Valid()
      modifies this
      ensures Valid()
      ensures records == old(records) - {email}
      ensures email !in records
      ensures email !in old(records) ==> records == old(records)
    {
      records := records - {email};
    }
  }

  /** The store: save, load with a wrong and the right password, delete twice. */
  method StoreScenario()
  {
    var user := new User("Ann", "ann@example.com", "pw", 1310.0);
    var store := new AccountStore(map[]);

    store.SaveUser(user);
    var loaded := store.LoadUser("ann@example.com", "wrong");
    assert loaded == None;
    loaded := store.LoadUser("ann@example.com", "pw");
    assert loaded == Some(Profile("Ann", "ann@example.com", "pw", 1310.0, map[]));

    store.DeleteUser("ann@example.com");
    var present := store.UserExists("ann@example.com");
    assert !present;
    store.DeleteUser("ann@example.com");
  }
}
